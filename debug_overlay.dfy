/** The in-app debug log: a process-wide append-only buffer with one subscriber
    slot (the broadcaster), and the overlay component that subscribes to it,
    hides itself after a quiet period unless an error was logged, and can be closed. */
module DebugOverlay {
  import opened Wrappers
  import opened Text

  datatype Level = Info | Warn | Error

  /** One buffered entry; never changed once created. */
  datatype DebugLog = Entry(timestamp: string, message: string, level: Level)

  /** The level as the source spells it ('info' | 'warn' | 'error'). */
  function LevelName(l: Level): string {
    match l
    case Info => "info"
    case Warn => "warn"
    case Error => "error"
  }

  /** The level as it is rendered. */
  function LevelLabel(l: Level): string {
    match l
    case Info => "INFO"
    case Warn => "WARN"
    case Error => "ERROR"
  }

  /** The rendered label is the level name passed through toUpperCase. */
  lemma LevelLabelIsUpperCase(l: Level)
    ensures LevelLabel(l) == ToUpperAscii(LevelName(l))
  {
  }

  /** The time of day cut from an ISO-8601 string: the second piece of
      split('T'), cut to 12 characters. `None` where the source's `[1]` is
      undefined and `.slice` would throw. */
  function Timestamp(iso: string): (r: Option<string>)
    ensures r.Some? <==> 'T' in iso
    ensures r.Some? ==> |r.value| <= 12 && 'T' !in r.value
    ensures r.Some? ==> r.value <= iso[IndexOf(iso, 'T') + 1..]
    ensures r.Some? ==>
      var rest := iso[IndexOf(iso, 'T') + 1..];
      r.value == Take(rest[..IndexOf(rest, 'T')], 12)
  {
    var parts := Split(iso, 'T');
    if |parts| < 2 then None
    else
      var rest := iso[IndexOf(iso, 'T') + 1..];
      assert parts[1] == Split(rest, 'T')[0] == rest[..IndexOf(rest, 'T')];
      Some(Take(parts[1], 12))
  }

  predicate IsDigit(ch: char) {
    '0' <= ch <= '9'
  }

  /** What Date.prototype.toISOString yields for years 0000 to 9999:
      YYYY-MM-DDTHH:mm:ss.sssZ. */
  predicate IsIsoInstant(s: string) {
    && |s| == 24
    && s[4] == '-' && s[7] == '-' && s[10] == 'T'
    && s[13] == ':' && s[16] == ':' && s[19] == '.' && s[23] == 'Z'
    && forall k | 0 <= k < 24 && k !in {4, 7, 10, 13, 16, 19, 23} :: IsDigit(s[k])
  }

  /** The shape HH:mm:ss.sss. */
  predicate IsClockTime(t: string) {
    && |t| == 12
    && t[2] == ':' && t[5] == ':' && t[8] == '.'
    && forall k | 0 <= k < 12 && k !in {2, 5, 8} :: IsDigit(t[k])
  }

  /** For a toISOString result the timestamp is exactly its HH:mm:ss.sss part. */
  lemma TimestampOfIsoInstant(iso: string)
    requires IsIsoInstant(iso)
    ensures Timestamp(iso) == Some(iso[11..23])
    ensures IsClockTime(iso[11..23])
  {
    assert forall k | 0 <= k < 10 :: iso[k] != 'T' by {
      forall k | 0 <= k < 10 ensures iso[k] != 'T' {
        if k != 4 && k != 7 { assert IsDigit(iso[k]); }
      }
    }
    assert IndexOf(iso, 'T') == 10;
    var rest := iso[11..];
    assert 'T' !in rest by {
      forall k | 0 <= k < |rest| ensures rest[k] != 'T' {
        assert rest[k] == iso[k + 11];
        if k + 11 !in {13, 16, 19, 23} { assert IsDigit(iso[k + 11]); }
      }
    }
    assert Split(iso, 'T') == [iso[..10]] + Split(rest, 'T');
    assert Split(rest, 'T') == [rest];
    assert rest[..12] == iso[11..23];
    var t := iso[11..23];
    forall k | 0 <= k < 12 && k !in {2, 5, 8} ensures IsDigit(t[k]) {
      assert t[k] == iso[k + 11];
    }
  }

  /** One rendered row: "{timestamp} [{LEVEL}] {message}". */
  function Line(log: DebugLog): string {
    log.timestamp + " [" + LevelLabel(log.level) + "] " + log.message
  }

  /** Reads a rendered row back: the timestamp runs to the first space. */
  function ParseLine(line: string): Option<DebugLog> {
    var i := IndexOf(line, ' ');
    if i == |line| then None else ParseTagged(line[..i], line[i + 1..])
  }

  /** Reads "[LEVEL] message" after a known timestamp. */
  function ParseTagged(ts: string, rest: string): Option<DebugLog> {
    if "[INFO] " <= rest then Some(Entry(ts, rest[7..], Info))
    else if "[WARN] " <= rest then Some(Entry(ts, rest[7..], Warn))
    else if "[ERROR] " <= rest then Some(Entry(ts, rest[8..], Error))
    else None
  }

  lemma ParseTaggedOf(ts: string, l: Level, message: string)
    ensures ParseTagged(ts, "[" + LevelLabel(l) + "] " + message) == Some(Entry(ts, message, l))
  {
    var rest := "[" + LevelLabel(l) + "] " + message;
    match l
    case Info =>
      assert rest[..7] == "[INFO] ";
      assert rest[7..] == message;
    case Warn =>
      assert rest[1] == 'W';
      assert rest[..7] == "[WARN] ";
      assert rest[7..] == message;
    case Error =>
      assert rest[1] == 'E';
      assert rest[..8] == "[ERROR] ";
      assert rest[8..] == message;
  }

  /** A row determines its entry whenever the timestamp holds no space,
      so the format loses nothing. */
  lemma ParseLineRoundTrip(log: DebugLog)
    requires ' ' !in log.timestamp
    ensures ParseLine(Line(log)) == Some(log)
  {
    var tagged := "[" + LevelLabel(log.level) + "] " + log.message;
    var line := Line(log);
    assert line == log.timestamp + ([' '] + tagged);
    IndexOfConcat(log.timestamp, [' '] + tagged, ' ');
    var i := |log.timestamp|;
    assert line[..i] == log.timestamp;
    assert line[i + 1..] == tagged;
    ParseTaggedOf(log.timestamp, log.level, log.message);
  }

  /** Every timestamp cut from a toISOString result yields rows that read back. */
  lemma IsoLineRoundTrip(iso: string, message: string, level: Level)
    requires IsIsoInstant(iso)
    ensures ParseLine(Line(Entry(Timestamp(iso).value, message, level)))
         == Some(Entry(Timestamp(iso).value, message, level))
  {
    TimestampOfIsoInstant(iso);
    var t := iso[11..23];
    forall k | 0 <= k < |t| ensures t[k] != ' ' {
      if k !in {2, 5, 8} { assert IsDigit(t[k]); }
    }
    ParseLineRoundTrip(Entry(t, message, level));
  }

  /** The rows of the overlay, one per entry, in buffer order. */
  function RenderLines(shown: seq<DebugLog>): (lines: seq<string>)
    ensures |lines| == |shown|
    ensures forall k :: 0 <= k < |shown| ==> lines[k] == Line(shown[k])
  {
    if shown == [] then [] else [Line(shown[0])] + RenderLines(shown[1..])
  }

  /** `logs.some(l => l.level === 'error')`. */
  predicate HasError(logs: seq<DebugLog>) {
    exists k :: 0 <= k < |logs| && logs[k].level == Error
  }

  /** Appending keeps an error, and adds one only by appending an error. */
  lemma HasErrorAppend(logs: seq<DebugLog>, e: DebugLog)
    ensures HasError(logs + [e]) <==> HasError(logs) || e.level == Error
  {
    if HasError(logs) {
      var k :| 0 <= k < |logs| && logs[k].level == Error;
      assert (logs + [e])[k] == logs[k];
    }
    if e.level == Error {
      assert (logs + [e])[|logs|] == e;
    }
  }

  /** The module-level state of the log: the buffer `logs`, the
      `setLogsCallback` slot (a reference to the overlay whose setter it
      holds, or null) and the number of delivery timers still queued. The
      timers capture nothing, so their number is the whole queue. */
  class LogBroadcaster {
    var logs: seq<DebugLog>
    var subscriber: Overlay?
    var pending: nat

    constructor ()
      ensures logs == [] && subscriber == null && pending == 0
    {
      logs, subscriber, pending := [], null, 0;
    }

    /** debugLog: appends one entry stamped from `iso` (the clock's
        toISOString, which always holds a 'T'); an omitted `level` means
        info. A delivery is queued only if someone is subscribed now. */
    method DebugLog(iso: string, message: string, level: Option<Level>)
      requires 'T' in iso
      modifies this
      ensures logs == old(logs) + [Entry(Timestamp(iso).value, message, level.GetOr(Info))]
      ensures subscriber == old(subscriber)
      ensures pending == old(pending) + (if subscriber != null then 1 else 0)
    {
      var entry := Entry(Timestamp(iso).value, message, level.GetOr(Info));
      logs := logs + [entry];
      if subscriber != null {
        pending := pending + 1;
      }
    }

    /** One queued delivery fires: it looks at the slot again and, if it is
        still taken, hands a copy of the whole buffer as it stands now. */
    method FireDelivery()
      requires pending > 0
      modifies this, subscriber
      ensures pending == old(pending) - 1
      ensures logs == old(logs) && subscriber == old(subscriber)
      ensures subscriber != null ==>
        && subscriber.shown == logs
        && subscriber.visible == old(subscriber.visible)
        && subscriber.timerArmed == old(subscriber.timerArmed)
        && subscriber.mounted == old(subscriber.mounted)
    {
      pending := pending - 1;
      if subscriber != null {
        subscriber.shown := logs;
      }
    }
  }

  /** The DebugOverlay component: its `visible` and `debugLogs` state, its
      30-second auto-hide timer, and whether its effect is mounted. */
  class Overlay {
    var visible: bool
    var shown: seq<DebugLog>
    var timerArmed: bool
    var mounted: bool

    /** Only a mounted overlay has a timer. */
    ghost predicate Valid()
      reads this
    {
      timerArmed ==> mounted
    }

    constructor ()
      ensures Valid() && visible && shown == [] && !timerArmed && !mounted
    {
      visible, shown, timerArmed, mounted := true, [], false, false;
    }

    /** The mount effect: takes the slot (whoever held it before), shows the
        whole buffer logged so far and arms the auto-hide timer. */
    method Mount(b: LogBroadcaster)
      requires Valid() && !mounted
      modifies this, b
      ensures Valid() && mounted && timerArmed
      ensures b.subscriber == this && b.logs == old(b.logs) && b.pending == old(b.pending)
      ensures shown == b.logs && visible == old(visible)
    {
      b.subscriber := this;
      shown := b.logs;
      timerArmed := true;
      mounted := true;
    }

    /** The 30-second timer fires: the overlay hides unless the buffer, as it
        stands then, holds an error. */
    method FireTimer(b: LogBroadcaster)
      requires Valid() && timerArmed
      modifies this
      ensures Valid() && !timerArmed && mounted
      ensures visible == (old(visible) && HasError(b.logs))
      ensures shown == old(shown)
    {
      timerArmed := false;
      if !HasError(b.logs) {
        visible := false;
      }
    }

    /** The close button. */
    method Close()
      modifies this
      ensures !visible
      ensures shown == old(shown) && timerArmed == old(timerArmed) && mounted == old(mounted)
    {
      visible := false;
    }

    /** The effect cleanup: cancels the timer and empties the slot, even when
        another overlay took it since; the buffer is left alone. */
    method Unmount(b: LogBroadcaster)
      requires Valid() && mounted
      modifies this, b
      ensures Valid() && !mounted && !timerArmed
      ensures b.subscriber == null && b.logs == old(b.logs) && b.pending == old(b.pending)
      ensures visible == old(visible) && shown == old(shown)
    {
      timerArmed := false;
      b.subscriber := null;
      mounted := false;
    }

    /** What the component renders: nothing once hidden, otherwise one row per
        shown entry. */
    function Render(): (r: Option<seq<string>>)
      reads this
      ensures r.None? <==> !visible
      ensures r.Some? ==> |r.value| == |shown|
      ensures r.Some? ==> forall k :: 0 <= k < |shown| ==> r.value[k] == Line(shown[k])
    {
      if visible then Some(RenderLines(shown)) else None
    }
  }

  /** An error logged before the timer keeps the overlay up; a later overlay
      takes the slot, and unmounting the first one empties it, so the queued
      delivery changes nobody's rows. */
  method ErrorKeepsOverlayVisible(iso: string)
    requires IsIsoInstant(iso)
  {
    var b := new LogBroadcaster();
    b.DebugLog(iso, "booted", None);
    var first := new Overlay();
    first.Mount(b);
    assert first.shown == b.logs && |first.shown| == 1 && first.shown[0].level == Info;
    b.DebugLog(iso, "x", Some(Error));
    assert b.logs[|b.logs| - 1].message == "x" && b.logs[|b.logs| - 1].level == Error;
    TimestampOfIsoInstant(iso);
    assert IsClockTime(b.logs[|b.logs| - 1].timestamp);
    b.FireDelivery();
    assert first.shown == b.logs;
    assert b.logs[1].level == Error;
    first.FireTimer(b);
    assert first.visible;

    var second := new Overlay();
    second.Mount(b);
    assert b.subscriber == second;
    b.DebugLog(iso, "late", Some(Warn));
    first.Unmount(b);
    var before := second.shown;
    b.FireDelivery();
    assert second.shown == before && |second.shown| == 2;
    assert second.Render() == Some(RenderLines(second.shown));
  }

  /** With no error logged, the timer hides the overlay, and nothing shows it again. */
  method QuietOverlayHides(iso: string)
    requires IsIsoInstant(iso)
  {
    var b := new LogBroadcaster();
    var o := new Overlay();
    o.Mount(b);
    b.DebugLog(iso, "ok", Some(Warn));
    b.FireDelivery();
    assert !HasError(b.logs);
    o.FireTimer(b);
    assert !o.visible && o.Render() == None;
    o.Unmount(b);
    o.Mount(b);
    assert !o.visible && o.shown == b.logs;
  }

  /** Once hidden, an overlay stays hidden through every event of the log and
      of its own lifecycle: nothing sets `visible` back to true. */
  method HiddenStaysHidden(b: LogBroadcaster, o: Overlay, iso: string)
    requires o.Valid() && !o.visible && !o.mounted && b.pending == 0
    requires IsIsoInstant(iso)
    modifies b, o
  {
    o.Mount(b);
    assert !o.visible;
    b.DebugLog(iso, "x", Some(Error));
    b.FireDelivery();
    assert !o.visible;
    o.FireTimer(b);
    assert !o.visible;
    o.Close();
    o.Unmount(b);
    o.Mount(b);
    assert !o.visible && o.Render() == None;
  }
}
