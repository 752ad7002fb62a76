/**
 The confirmation dialog (components/ConfirmationModal.tsx). When
 `requireAuth` is set, the confirm button stays disabled and its handler
 does nothing until the typed input is exactly "DELETE". The typed input
 lives in the dialog and survives closing it.
 */
module ConfirmationModal {
  import opened Types

  const Passphrase: string := "DELETE"

  datatype Modal = Modal(isOpen: bool, title: string, message: string, requireAuth: bool, input: string)

  /** `isConfirmDisabled`: only a guarded dialog disables its button, until the passphrase is typed. */
  function ConfirmDisabled(m: Modal): (disabled: bool)
    ensures disabled ==> m.requireAuth
    ensures m.requireAuth ==> (disabled <==> m.input != Passphrase)
  {
    m.requireAuth && m.input != Passphrase
  }

  /** A press of the confirm button: whether `onConfirm` ran, and the dialog afterwards. */
  datatype Pressed = Pressed(confirmed: bool, modal: Modal)

  /** `handleConfirm`: runs `onConfirm` exactly when the button is enabled, then clears the input. */
  function HandleConfirm(m: Modal): (r: Pressed)
    ensures r.confirmed <==> !ConfirmDisabled(m)
    ensures r.confirmed ==> r.modal == m.(input := "")
    ensures !r.confirmed ==> r.modal == m
  {
    if m.requireAuth && m.input != Passphrase then Pressed(false, m)
    else Pressed(true, m.(input := ""))
  }

  /** Typing into the input field. */
  function TypeInput(m: Modal, text: string): (r: Modal)
    ensures r.input == text
    ensures r.(input := m.input) == m
  {
    m.(input := text)
  }

  datatype DialogView = DialogView(
    title: string,
    message: string,
    securityBanner: bool,
    passphraseField: bool,
    confirmDisabled: bool,
    confirmLabel: string)

  /** What the dialog renders: nothing while closed. */
  function Render(m: Modal): (v: Option<DialogView>)
    ensures v.None? <==> !m.isOpen
    ensures v.Some? ==> v.value.confirmDisabled == ConfirmDisabled(m)
    ensures v.Some? ==> v.value.passphraseField == m.requireAuth && v.value.securityBanner == m.requireAuth
    ensures v.Some? ==> (v.value.confirmLabel == "Authorize" <==> m.requireAuth)
  {
    if !m.isOpen then None
    else Some(DialogView(
      m.title, m.message, m.requireAuth, m.requireAuth, m.requireAuth && m.input != Passphrase,
      if m.requireAuth then "Authorize" else "Confirm"))
  }

  /** Whatever was typed before, a confirm press goes through exactly when the passphrase (or no passphrase) is required. */
  lemma TypedPassphraseUnlocks(m: Modal, text: string)
    ensures HandleConfirm(TypeInput(m, text)).confirmed <==> !m.requireAuth || text == Passphrase
  {
  }

  /** A guarded dialog confirms once per typing of the passphrase: a second press right after does nothing. */
  lemma ConfirmsOncePerPassphrase(m: Modal)
    requires m.requireAuth
    requires HandleConfirm(m).confirmed
    ensures !HandleConfirm(HandleConfirm(m).modal).confirmed
    ensures HandleConfirm(HandleConfirm(m).modal).modal == HandleConfirm(m).modal
  {
  }
}
