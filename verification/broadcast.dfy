/** The broadcaster's session timer and stream controls. The timer shows the
    time since its start as `HH:MM:SS`. The start is written to device
    storage while the timer runs and removed when it stops and when the page
    mounts, so a reload does not resume a session. Device storage and the
    clock are explicit values here. */
module Broadcast {
  import opened Common
  import ChatApi
  import Player

  // ---------------------------------------------------------------------------
  // Decimal text

  function DigitChar(d: nat): (c: char)
    requires d < 10
    ensures '0' <= c <= '9'
  {
    ['0', '1', '2', '3', '4', '5', '6', '7', '8', '9'][d]
  }

  function DigitValue(c: char): nat {
    if '0' <= c <= '9' then (c as int - '0' as int) as nat else 0
  }

  predicate AllDigits(s: string) {
    forall i :: 0 <= i < |s| ==> '0' <= s[i] <= '9'
  }

  /** `String(n)` for a natural number: its decimal digits, no leading zero. */
  function Digits(n: nat): (s: string)
    ensures |s| >= 1 && AllDigits(s)
    ensures n < 10 <==> |s| == 1
    ensures 10 <= n < 100 ==> |s| == 2
  {
    if n < 10 then [DigitChar(n)] else Digits(n / 10) + [DigitChar(n % 10)]
  }

  /** The value of a digit string, read from the most significant end. */
  function ValueOf(s: string): nat {
    if s == [] then 0 else 10 * ValueOf(s[..|s| - 1]) + DigitValue(s[|s| - 1])
  }

  lemma DigitRoundTrip(d: nat)
    requires d < 10
    ensures DigitValue(DigitChar(d)) == d
  {
  }

  /** Reading the digits back gives the number. */
  lemma {:induction false} DigitsRoundTrip(n: nat)
    ensures ValueOf(Digits(n)) == n
  {
    if n < 10 {
      DigitRoundTrip(n);
      assert Digits(n)[..0] == [];
    } else {
      DigitsRoundTrip(n / 10);
      DigitRoundTrip(n % 10);
      var s := Digits(n);
      assert s[..|s| - 1] == Digits(n / 10);
    }
  }

  /** A leading zero does not change the value. */
  lemma {:induction false} LeadingZero(s: string)
    ensures ValueOf("0" + s) == ValueOf(s)
  {
    if s != [] {
      LeadingZero(s[..|s| - 1]);
      assert ("0" + s)[..|"0" + s| - 1] == "0" + s[..|s| - 1];
    } else {
      assert ("0" + s)[..0] == [];
    }
  }

  /** `String(i)` for any integer: a minus sign before the digits of a
      negative number. */
  function IntText(i: int): (s: string)
    ensures i >= 0 ==> s == Digits(i)
    ensures i < 0 ==> |s| >= 2 && s[0] == '-'
  {
    if i < 0 then "-" + Digits(-i) else Digits(i)
  }

  /** `padStart(2, '0')`. */
  function Pad2(s: string): (r: string)
    ensures |s| >= 2 ==> r == s
    ensures |r| >= 2 && r[|r| - |s|..] == s
    ensures |s| < 2 ==> |r| == 2 && forall k :: 0 <= k < 2 - |s| ==> r[k] == '0'
  {
    if |s| >= 2 then s
    else if |s| == 1 then "0" + s
    else "00"
  }

  /** A padded number is all digits and reads back as the number. */
  lemma PaddedValue(n: nat)
    ensures AllDigits(Pad2(IntText(n))) && ValueOf(Pad2(IntText(n))) == n
  {
    DigitsRoundTrip(n);
    if n < 10 {
      LeadingZero(Digits(n));
    }
  }

  /** A number below 100 pads to exactly two digits that read back as it. */
  lemma Pad2RoundTrip(n: nat)
    requires n < 100
    ensures |Pad2(IntText(n))| == 2 && AllDigits(Pad2(IntText(n)))
    ensures ValueOf(Pad2(IntText(n))) == n
  {
    PaddedValue(n);
  }

  // ---------------------------------------------------------------------------
  // The session time

  /** JavaScript's `%` for a positive divisor: the remainder takes the sign
      of the dividend. */
  function JsRem(a: int, b: int): (r: int)
    requires b > 0
    ensures a >= 0 ==> r == a % b
    ensures -b < r < b
    ensures a < 0 ==> r <= 0
  {
    if a >= 0 then a % b else -((-a) % b)
  }

  /** Hours, minutes and seconds of an elapsed time in milliseconds, with
      `Math.floor` on each quotient. */
  datatype Clock = Clock(hours: int, minutes: int, seconds: int)

  function Split(delta: int): (c: Clock)
    ensures delta >= 0 ==> c.hours >= 0 && 0 <= c.minutes < 60 && 0 <= c.seconds < 60
    ensures delta < 0 ==> c.hours < 0
  {
    // Dafny's division by a positive divisor rounds down, like Math.floor.
    Clock(delta / 3600000, JsRem(delta, 3600000) / 60000, JsRem(delta, 60000) / 1000)
  }

  /** For a non-negative elapsed time the parts are in range and add up to
      the whole seconds elapsed. */
  lemma SplitBounds(delta: int)
    requires delta >= 0
    ensures var c := Split(delta);
      && c.hours >= 0 && 0 <= c.minutes < 60 && 0 <= c.seconds < 60
      && c.hours * 3600 + c.minutes * 60 + c.seconds == delta / 1000
  {
    var h := delta / 3600000;
    var r := delta % 3600000;
    assert delta == h * 3600000 + r;
    var m := r / 60000;
    var r2 := r % 60000;
    assert r == m * 60000 + r2;
    assert delta % 60000 == r2 by {
      assert delta == (h * 60 + m) * 60000 + r2;
    }
    var s := r2 / 1000;
    assert delta == (h * 3600 + m * 60 + s) * 1000 + r2 % 1000;
  }

  /** The label `HH:MM:SS`: each part as text, padded to two characters. */
  function FormatSessionTime(delta: int): (t: string)
    ensures |t| >= 8
    ensures 0 <= delta < 100 * 3600000 ==> |t| == 8
  {
    Label(Split(delta))
  }

  /** The parts of a clock as text, each padded to two characters. */
  function Label(c: Clock): string {
    Pad2(IntText(c.hours)) + ":" + Pad2(IntText(c.minutes)) + ":" + Pad2(IntText(c.seconds))
  }

  /** The label reads back: its last two fields are two digits each, and the
      three fields give the whole seconds elapsed. */
  lemma FormatReadsBack(delta: int)
    requires delta >= 0
    ensures ReadsBackAs(FormatSessionTime(delta), delta / 1000)
  {
    var c := Split(delta);
    SplitBounds(delta);
    LabelReadsBack(c, delta / 1000);
    assert FormatSessionTime(delta) == Label(c);
  }

  /** t is `H:MM:SS` with digit fields, the last two of two digits, that read
      back as `total` seconds. */
  predicate ReadsBackAs(t: string, total: int) {
    && |t| >= 6 && t[|t| - 3] == ':' && t[|t| - 6] == ':'
    && AllDigits(t[..|t| - 6]) && AllDigits(t[|t| - 5..|t| - 3]) && AllDigits(t[|t| - 2..])
    && ValueOf(t[..|t| - 6]) * 3600 + ValueOf(t[|t| - 5..|t| - 3]) * 60 + ValueOf(t[|t| - 2..]) == total
  }

  /** The label of a clock in range is three digit fields, the last two of
      two digits, that read back as the clock's whole seconds. */
  lemma LabelReadsBack(c: Clock, total: int)
    requires c.hours >= 0 && 0 <= c.minutes < 60 && 0 <= c.seconds < 60
    requires c.hours * 3600 + c.minutes * 60 + c.seconds == total
    ensures ReadsBackAs(Label(c), total)
  {
    Pad2RoundTrip(c.minutes);
    Pad2RoundTrip(c.seconds);
    PaddedValue(c.hours);
    FieldsReadBack(Pad2(IntText(c.hours)), Pad2(IntText(c.minutes)), Pad2(IntText(c.seconds)), c, total);
  }

  /** Digit fields that read back as a clock's parts, joined with colons,
      read back as the clock's whole seconds. */
  lemma FieldsReadBack(hh: string, mm: string, ss: string, c: Clock, total: int)
    requires |mm| == 2 && |ss| == 2 && AllDigits(hh) && AllDigits(mm) && AllDigits(ss)
    requires ValueOf(hh) == c.hours && ValueOf(mm) == c.minutes && ValueOf(ss) == c.seconds
    requires c.hours * 3600 + c.minutes * 60 + c.seconds == total
    ensures ReadsBackAs(hh + ":" + mm + ":" + ss, total)
  {
    JoinedFields(hh, mm, ss);
  }

  /** The three fields of a label whose last two fields have two characters. */
  lemma JoinedFields(hh: string, mm: string, ss: string)
    requires |mm| == 2 && |ss| == 2
    ensures var t := hh + ":" + mm + ":" + ss;
      && t[|t| - 3] == ':' && t[|t| - 6] == ':'
      && t[..|t| - 6] == hh && t[|t| - 5..|t| - 3] == mm && t[|t| - 2..] == ss
  {
  }

  /** A start in the future (a clock set back) shows a negative hour field. */
  lemma NegativeElapsedShowsSign(delta: int)
    requires delta < 0
    ensures FormatSessionTime(delta)[0] == '-'
  {
  }

  /** Zero elapsed reads `00:00:00`, the label shown when stopped. */
  lemma ZeroIsReset()
    ensures FormatSessionTime(0) == "00:00:00"
  {
    assert Split(0) == Clock(0, 0, 0);
    assert IntText(0) == "0";
  }

  // ---------------------------------------------------------------------------
  // Timer

  /** The timer: whether it runs, the start kept in device storage, the start
      in use, and the label. */
  datatype Timer = Timer(started: bool, stored: Option<int>, startTime: int, sessionTime: string)

  const Idle := Timer(false, None, 0, "00:00:00")

  /** The timer effect after `started` changed: starting reuses a stored
      start (or takes now) and stores it; stopping forgets it and resets the
      label. */
  function SetStarted(t: Timer, started: bool, now: int): (r: Timer)
    ensures r.started == started
    ensures started ==> r.startTime == t.stored.GetOr(now) && r.stored == Some(r.startTime) && r.sessionTime == t.sessionTime
    ensures !started ==> r.stored.None? && r.sessionTime == "00:00:00" && r.startTime == t.startTime
  {
    if started then
      var start := t.stored.GetOr(now);
      t.(started := true, startTime := start, stored := Some(start))
    else t.(started := false, stored := None, sessionTime := "00:00:00")
  }

  /** One tick of the running timer's interval; a stopped timer has none. */
  function Tick(t: Timer, now: int): (r: Timer)
    ensures !t.started ==> r == t
    ensures t.started ==> r == t.(sessionTime := FormatSessionTime(now - t.startTime))
  {
    if t.started then t.(sessionTime := FormatSessionTime(now - t.startTime)) else t
  }

  /** Mounting the page, on first load or after a reload: the component
      starts stopped with a fresh label, device storage keeps what it held,
      and the timer effect runs once with the timer stopped, which removes
      the stored start. */
  function Mount(stored: Option<int>, now: int): (r: Timer)
    ensures !r.started && r.stored.None? && r.sessionTime == "00:00:00"
  {
    SetStarted(Idle.(stored := stored), false, now)
  }

  /** A session is not resumed across a reload or a stop: whatever device
      storage held, the next start takes that moment's clock reading and
      stores it, so the label (see `Tick`) counts from then. */
  lemma StartAfterMountOrStopIsNow(stored: Option<int>, t: Timer, now0: int, now1: int)
    ensures var running := SetStarted(Mount(stored, now0), true, now1);
      running.started && running.startTime == now1 && running.stored == Some(now1)
    ensures var running := SetStarted(SetStarted(t, false, now0), true, now1);
      running.started && running.startTime == now1 && running.stored == Some(now1)
  {
  }

  /** `handleEndStream`: the timer stops, and the end callback runs only when
      one was given. */
  function EndStream(t: Timer, hasOnStreamEnd: bool, now: int): (r: (Timer, bool))
    ensures r.0 == SetStarted(t, false, now) && r.0.sessionTime == "00:00:00"
    ensures r.1 <==> hasOnStreamEnd
  {
    (SetStarted(t, false, now), hasOnStreamEnd)
  }

  /** The broadcaster's own chat message: trimmed, with the full address (or
      nothing) as both sender and wallet. */
  function BroadcasterMessage(input: string, playbackId: string, creatorAddress: string): (req: ChatApi.SendRequest)
    ensures req.message == Trim(input) && req.streamId == playbackId
    ensures req.sender == creatorAddress && req.walletAddress == creatorAddress
  {
    ChatApi.SendRequest(Trim(input), playbackId, creatorAddress, creatorAddress)
  }

  /** A broadcaster's message, once stored, is shown under the full address
      and carries the trimmed text. */
  lemma BroadcasterShownInFull(input: string, playbackId: string, creatorAddress: string,
                               sentAt: string, stored: Result<ChatApi.Assigned, string>, now: int)
    ensures var m := ChatApi.SendMessage(BroadcasterMessage(input, playbackId, creatorAddress), sentAt, stored, now);
      m.Success? <==> stored.Success?
    ensures var m := ChatApi.SendMessage(BroadcasterMessage(input, playbackId, creatorAddress), sentAt, stored, now);
      m.Success? ==> m.value.sender == creatorAddress && m.value.walletAddress == creatorAddress && m.value.message == Trim(input)
  {
    if stored.Success? {
      ChatApi.SentMessageEchoesRequest(BroadcasterMessage(input, playbackId, creatorAddress), sentAt, stored, now);
    }
  }

  /** The two chat senders differ: a viewer writing from the creator's own
      wallet is shown under the first five characters and an ellipsis, never
      under the full address the broadcaster's messages carry. */
  lemma ViewerSenderIsShortened(viewerInput: string, input: string, playbackId: string, creatorAddress: string)
    requires Trim(viewerInput) != [] && |creatorAddress| > 8
    ensures var v := Player.ChatRequest(viewerInput, true, true, Some(creatorAddress), playbackId);
      v.Some? && v.value.sender != BroadcasterMessage(input, playbackId, creatorAddress).sender
      && v.value.walletAddress == BroadcasterMessage(input, playbackId, creatorAddress).walletAddress
  {
    var v := Player.ChatRequest(viewerInput, true, true, Some(creatorAddress), playbackId);
    assert |v.value.sender| == 8;
  }
}
