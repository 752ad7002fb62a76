/**
 Where the events of an operation end up (App.tsx:129-144): `addLog`
 appends an entry to the append-only log, and `showNotification` replaces
 the one notification on screen and cues a sound when sounds are enabled.
 The random entry id and the `Date.now()` timestamp are supplied as stamps.
 */
module Feed {
  import opened Types
  import Seqs

  datatype Stamp = Stamp(id: string, timestamp: int)

  datatype Notification = Notification(notice: Notice, tone: Tone)

  datatype Feed = Feed(logs: seq<LogEntry>, notification: Option<Notification>, sounds: seq<SoundType>)

  /** `addLog`: one entry at the end, every earlier entry untouched. */
  function AddLog(logs: seq<LogEntry>, stamp: Stamp, message: string, severity: Severity): (r: seq<LogEntry>)
    ensures |r| == |logs| + 1
    ensures r[..|logs|] == logs
    ensures r[|logs|] == LogEntry(stamp.id, stamp.timestamp, message, severity)
  {
    logs + [LogEntry(stamp.id, stamp.timestamp, message, severity)]
  }

  /** The sound `showNotification` plays: the alarm for alerts, the chosen sound otherwise, nothing when muted. */
  function SoundFor(settings: Settings, tone: Tone): (r: Option<SoundType>)
    ensures r.Some? <==> settings.soundEnabled
    ensures r.Some? && tone == AlertTone ==> r.value == Alarm
    ensures r.Some? && tone == SuccessTone ==> r.value == settings.alertSound
  {
    if !settings.soundEnabled then None
    else if tone == AlertTone then Some(Alarm)
    else Some(settings.alertSound)
  }

  predicate IsLog(e: Event) {
    e.Logged?
  }

  predicate IsNotice(e: Event) {
    e.Notified?
  }

  /** The log events of `events`, in order. */
  function LogLines(events: seq<Event>): seq<Event> {
    Seqs.Keep(events, IsLog)
  }

  /** The notification left on screen by `events`: the last one issued, if any. */
  function LastNotice(events: seq<Event>): Option<Notification>
    decreases |events|
  {
    if |events| == 0 then None
    else
      var e := events[|events| - 1];
      if e.Notified? then Some(Notification(e.notice, e.tone)) else LastNotice(events[..|events| - 1])
  }

  function Cue(settings: Settings, tone: Tone): seq<SoundType> {
    var s := SoundFor(settings, tone);
    if s.Some? then [s.value] else []
  }

  /** Log entries for log events, pairing the k-th event with the k-th stamp. */
  function Entries(lines: seq<Event>, stamps: seq<Stamp>): (r: seq<LogEntry>)
    requires |stamps| == |lines|
    requires forall k :: 0 <= k < |lines| ==> lines[k].Logged?
    ensures |r| == |lines|
    ensures forall k :: 0 <= k < |r| ==>
      r[k] == LogEntry(stamps[k].id, stamps[k].timestamp, lines[k].message, lines[k].severity)
    decreases |lines|
  {
    if |lines| == 0 then []
    else [LogEntry(stamps[0].id, stamps[0].timestamp, lines[0].message, lines[0].severity)]
         + Entries(lines[1..], stamps[1..])
  }

  /**
   Applies `events` in order: each log event is appended to the log with the next
   stamp, each notification replaces the one on screen and cues its sound.
   */
  function Commit(f: Feed, settings: Settings, events: seq<Event>, stamps: seq<Stamp>): (r: Feed)
    requires |stamps| == |LogLines(events)|
    ensures |f.sounds| <= |r.sounds| && r.sounds[..|f.sounds|] == f.sounds
    decreases |events|
  {
    if |events| == 0 then f
    else
      var e := events[0];
      if e.Logged? then
        Commit(f.(logs := AddLog(f.logs, stamps[0], e.message, e.severity)), settings, events[1..], stamps[1..])
      else
        assert LogLines(events) == LogLines(events[1..]);
        var f' := f.(notification := Some(Notification(e.notice, e.tone)), sounds := f.sounds + Cue(settings, e.tone));
        var r := Commit(f', settings, events[1..], stamps);
        assert r.sounds[..|f.sounds|] == r.sounds[..|f'.sounds|][..|f.sounds|];
        r
  }

  /** The entries of a log event followed by more log events. */
  lemma EntriesCons(e: Event, lines: seq<Event>, stamps: seq<Stamp>)
    requires e.Logged? && |stamps| == |lines| + 1
    requires forall k :: 0 <= k < |lines| ==> lines[k].Logged?
    ensures Entries([e] + lines, stamps) ==
      [LogEntry(stamps[0].id, stamps[0].timestamp, e.message, e.severity)] + Entries(lines, stamps[1..])
  {
    assert ([e] + lines)[1..] == lines;
  }

  /** The notification on screen after a commit is the last one issued, or the earlier one when none was. */
  lemma {:induction false} CommitNotification(f: Feed, settings: Settings, events: seq<Event>, stamps: seq<Stamp>)
    requires |stamps| == |LogLines(events)|
    ensures Commit(f, settings, events, stamps).notification ==
      if LastNotice(events).Some? then LastNotice(events) else f.notification
    decreases |events|
  {
    if |events| > 0 {
      var e := events[0];
      var rest := events[1..];
      LastNoticeCons(events);
      if e.Logged? {
        assert LogLines(events) == [e] + LogLines(rest);
        CommitNotification(f.(logs := AddLog(f.logs, stamps[0], e.message, e.severity)), settings, rest, stamps[1..]);
      } else {
        assert LogLines(events) == LogLines(rest);
        CommitNotification(f.(notification := Some(Notification(e.notice, e.tone)), sounds := f.sounds + Cue(settings, e.tone)), settings, rest, stamps);
      }
    }
  }

  /** A commit cues one sound per notification when sounds are enabled, and none when muted. */
  lemma {:induction false} CommitSounds(f: Feed, settings: Settings, events: seq<Event>, stamps: seq<Stamp>)
    requires |stamps| == |LogLines(events)|
    ensures |Commit(f, settings, events, stamps).sounds| ==
      |f.sounds| + if settings.soundEnabled then Seqs.Count(events, IsNotice) else 0
    decreases |events|
  {
    if |events| > 0 {
      var e := events[0];
      var rest := events[1..];
      if e.Logged? {
        assert LogLines(events) == [e] + LogLines(rest);
        CommitSounds(f.(logs := AddLog(f.logs, stamps[0], e.message, e.severity)), settings, rest, stamps[1..]);
      } else {
        assert LogLines(events) == LogLines(rest);
        CommitSounds(f.(notification := Some(Notification(e.notice, e.tone)), sounds := f.sounds + Cue(settings, e.tone)), settings, rest, stamps);
      }
    }
  }

  /** The log after a commit is the old log followed by one stamped entry per log event, in order. */
  lemma {:induction false} CommitLogs(f: Feed, settings: Settings, events: seq<Event>, stamps: seq<Stamp>)
    requires |stamps| == |LogLines(events)|
    ensures Commit(f, settings, events, stamps).logs == f.logs + Entries(LogLines(events), stamps)
    decreases |events|
  {
    if |events| > 0 {
      var e := events[0];
      var rest := events[1..];
      if e.Logged? {
        var lines := LogLines(events);
        var entry := LogEntry(stamps[0].id, stamps[0].timestamp, e.message, e.severity);
        assert lines == [e] + LogLines(rest);
        EntriesCons(e, LogLines(rest), stamps);
        var f' := f.(logs := AddLog(f.logs, stamps[0], e.message, e.severity));
        CommitLogs(f', settings, rest, stamps[1..]);
        assert f'.logs == f.logs + [entry];
      } else {
        assert LogLines(events) == LogLines(rest);
        var f' := f.(notification := Some(Notification(e.notice, e.tone)), sounds := f.sounds + Cue(settings, e.tone));
        CommitLogs(f', settings, rest, stamps);
      }
    }
  }

  /** The last notification of a non-empty sequence is found in its tail, or else is its head. */
  lemma {:induction false} LastNoticeCons(events: seq<Event>)
    requires |events| > 0
    ensures LastNotice(events) ==
      if LastNotice(events[1..]).Some? then LastNotice(events[1..])
      else if events[0].Notified? then Some(Notification(events[0].notice, events[0].tone))
      else None
    decreases |events|
  {
    if |events| > 1 {
      var init := events[..|events| - 1];
      assert events[1..][..|events[1..]| - 1] == init[1..];
      assert events[1..][|events[1..]| - 1] == events[|events| - 1];
      assert init[0] == events[0];
      LastNoticeCons(init);
    }
  }
}
