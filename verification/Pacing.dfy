/**
 The two integer-time schedulers: the loop pacer (common/util/rate.h) and the
 frame-rate throttle of the encoder filter (rtsp-ws-proxy/stream_filter.cc).
 The clock's readings are parameters; times are in ticks of the clock.
 */
module Pacing {

  /** The integer division of C++: towards zero. */
  function TruncDiv(a: int, b: int): int
    requires b != 0
  {
    if a >= 0 then a / b else -((-a) / b)
  }

  // -------------------------------------------------------------------- pacing

  /** start: time_beg_; cycle: expected_cycle_time_; actual: actual_cycle_time_. */
  datatype Pace = Pace(start: int, cycle: int, actual: int)

  /** One call of Sleep that reads the clock at `now`, up to the sleep itself. */
  function SleepAt(p: Pace, now: int): Pace {
    var end := if now < p.start then now + p.cycle else p.start + p.cycle;
    Pace(if now > end + p.cycle && end <= now then now else end, p.cycle, now - p.start)
  }

  /** How long that call sleeps; 0: not at all. */
  function SleepTime(p: Pace, now: int): nat {
    var end := if now < p.start then now + p.cycle else p.start + p.cycle;
    if end - now <= 0 then 0 else end - now
  }

  class Rate {
    var timeBeg: int
    const expectedCycleTime: int
    var actualCycleTime: int

    function Value(): Pace
      reads this
    {
      Pace(timeBeg, expectedCycleTime, actualCycleTime)
    }

    /** ticks: clock::period::den / clock::period::num. */
    constructor (now: int, ticks: nat, frequency: int)
      requires frequency != 0
      ensures Value() == Pace(now, TruncDiv(ticks, frequency), 0)
    {
      timeBeg, expectedCycleTime, actualCycleTime := now, TruncDiv(ticks, frequency), 0;
    }

    /** sleep: what is passed to sleep_for; 0: it is not called. */
    method Sleep(now: int) returns (sleep: nat)
      modifies this
      ensures Value() == SleepAt(old(Value()), now)
      ensures sleep == SleepTime(old(Value()), now)
      ensures actualCycleTime == now - old(timeBeg)
      ensures old(timeBeg) <= now < old(timeBeg) + expectedCycleTime ==>
              timeBeg == old(timeBeg) + expectedCycleTime && sleep == timeBeg - now
    {
      var expectedEnd := timeBeg + expectedCycleTime;
      var actualEnd := now;
      if actualEnd < timeBeg {
        expectedEnd := actualEnd + expectedCycleTime;
      }
      var sleepTime := expectedEnd - actualEnd;
      actualCycleTime := actualEnd - timeBeg;
      timeBeg := expectedEnd;
      if sleepTime <= 0 {
        if actualEnd > expectedEnd + expectedCycleTime {
          timeBeg := actualEnd;
        }
        return 0;
      }
      return sleepTime;
    }

    method Reset(now: int)
      modifies this`timeBeg
      ensures Value() == old(Value()).(start := now)
    {
      timeBeg := now;
    }
  }

  /** On a clock that has not gone back behind the start, the start advances by at
      least a cycle; by exactly one unless the loop took more than two cycles, and
      then it moves to the reading. */
  lemma StartAdvances(p: Pace, now: int)
    requires p.cycle >= 0
    ensures p.start <= now ==> SleepAt(p, now).start >= p.start + p.cycle
    ensures SleepAt(p, now).start == p.start + p.cycle <==> p.start <= now <= p.start + 2 * p.cycle
    ensures now > p.start + 2 * p.cycle ==> SleepAt(p, now).start == now && SleepTime(p, now) == 0
  {}

  /** Whatever the clock does, a call sleeps a cycle at most; it does sleep unless
      the cycle is used up; and it comes back no earlier than the new start. */
  lemma SleepsAtMostOneCycle(p: Pace, now: int)
    requires p.cycle >= 0
    ensures SleepTime(p, now) <= p.cycle
    ensures SleepTime(p, now) > 0 <==> p.cycle > 0 && now < p.start + p.cycle
    ensures now + SleepTime(p, now) >= SleepAt(p, now).start
    ensures now < p.start ==> now + SleepTime(p, now) == SleepAt(p, now).start == now + p.cycle
  {}

  /** One call of Sleep: the reading of the clock, and the time of the return. */
  datatype Call = Call(now: int, back: int)

  function PaceAfter(p: Pace, calls: seq<Call>): Pace {
    if calls == [] then p else SleepAt(PaceAfter(p, calls[..|calls| - 1]), calls[|calls| - 1].now)
  }

  /** When control came back last: at the construction, or from the last call. */
  function LastBack(p: Pace, calls: seq<Call>): int {
    if calls == [] then p.start else calls[|calls| - 1].back
  }

  /** The clock does not go back and no sleep ends early. */
  ghost predicate Honest(p: Pace, calls: seq<Call>) {
    calls != [] ==>
      var before, c := calls[..|calls| - 1], calls[|calls| - 1];
      && Honest(p, before)
      && c.now >= LastBack(p, before)
      && c.back >= c.now + SleepTime(PaceAfter(p, before), c.now)
  }

  /** How far behind the recorded start the last return came. */
  function Late(p: Pace, calls: seq<Call>): int {
    LastBack(p, calls) - PaceAfter(p, calls).start
  }

  lemma {:induction false} CycleStays(p: Pace, calls: seq<Call>)
    ensures PaceAfter(p, calls).cycle == p.cycle
  {
    if calls == [] {
    } else {
      CycleStays(p, calls[..|calls| - 1]);
    }
  }

  /** Control never comes back before the recorded start. */
  lemma {:induction false} BackAfterStart(p: Pace, calls: seq<Call>)
    requires p.cycle >= 0 && Honest(p, calls)
    ensures Late(p, calls) >= 0
  {
    if calls == [] {
    } else {
      var before := calls[..|calls| - 1];
      BackAfterStart(p, before);
      CycleStays(p, before);
      SleepsAtMostOneCycle(PaceAfter(p, before), calls[|calls| - 1].now);
    }
  }

  lemma HonestLast(p: Pace, calls: seq<Call>)
    requires calls != [] && Honest(p, calls)
    ensures var before := calls[..|calls| - 1];
      Honest(p, before) && calls[|calls| - 1].now >= LastBack(p, before)
  {}

  lemma {:induction false} HonestPrefix(p: Pace, calls: seq<Call>, i: nat)
    requires i <= |calls| && Honest(p, calls)
    ensures Honest(p, calls[..i])
    decreases |calls|
  {
    if i < |calls| {
      assert calls[..|calls| - 1][..i] == calls[..i];
      HonestPrefix(p, calls[..|calls| - 1], i);
    } else {
      assert calls[..i] == calls;
    }
  }

  /** The time k cycles take. */
  function Cycles(k: int, cycle: int): int {
    k * cycle
  }

  lemma OneCycleMore(k: int, cycle: int)
    ensures Cycles(k + 1, cycle) == Cycles(k, cycle) + cycle
    ensures Cycles(0, cycle) == 0 && Cycles(2, cycle) == 2 * cycle
  {}

  /** Between any two points of a run the start advances a cycle a call, or more. */
  lemma {:induction false} StartsApart(p: Pace, calls: seq<Call>, i: nat)
    requires p.cycle >= 0 && Honest(p, calls) && i <= |calls|
    ensures PaceAfter(p, calls).start >= PaceAfter(p, calls[..i]).start + Cycles(|calls| - i, p.cycle)
    decreases |calls|
  {
    hide Cycles, SleepAt, Honest;
    OneCycleMore(|calls| - i - 1, p.cycle);
    if i < |calls| {
      var n := |calls| - 1;
      var before := calls[..n];
      assert before[..i] == calls[..i];
      HonestLast(p, calls);
      StartsApart(p, before, i);
      BackAfterStart(p, before);
      CycleStays(p, before);
      StartAdvances(PaceAfter(p, before), calls[n].now);
    } else {
      assert calls[..i] == calls;
    }
  }

  /** The k-th return is at least k cycles after the construction. */
  lemma NeverEarly(p: Pace, calls: seq<Call>)
    requires p.cycle >= 0 && Honest(p, calls)
    ensures LastBack(p, calls) >= p.start + Cycles(|calls|, p.cycle)
  {
    hide Cycles, Honest;
    assert calls[..0] == [];
    StartsApart(p, calls, 0);
    BackAfterStart(p, calls);
  }

  /** The last return and the i-th are (n - i) cycles apart, less what the i-th was
      late by. */
  lemma ReturnsApart(p: Pace, calls: seq<Call>, i: nat)
    requires p.cycle >= 0 && Honest(p, calls) && i <= |calls|
    ensures LastBack(p, calls) - LastBack(p, calls[..i]) >= Cycles(|calls| - i, p.cycle) - Late(p, calls[..i])
  {
    hide Cycles, Honest, PaceAfter;
    StartsApart(p, calls, i);
    BackAfterStart(p, calls);
  }

  /** Every return comes at most d after the sleep was to end, or, without a sleep,
      after the reading. */
  ghost predicate Prompt(p: Pace, calls: seq<Call>, d: nat) {
    calls != [] ==>
      var before, c := calls[..|calls| - 1], calls[|calls| - 1];
      Prompt(p, before, d) && c.back <= c.now + SleepTime(PaceAfter(p, before), c.now) + d
  }

  lemma {:induction false} PromptPrefix(p: Pace, calls: seq<Call>, d: nat, i: nat)
    requires i <= |calls| && Prompt(p, calls, d)
    ensures Prompt(p, calls[..i], d)
    decreases |calls|
  {
    if i < |calls| {
      assert calls[..|calls| - 1][..i] == calls[..i];
      PromptPrefix(p, calls[..|calls| - 1], d, i);
    } else {
      assert calls[..i] == calls;
    }
  }

  /** The reset keeps the pacer from ever being more than a cycle behind. */
  lemma LateAtMostACycle(p: Pace, calls: seq<Call>, d: nat)
    requires p.cycle >= 0 && Honest(p, calls) && Prompt(p, calls, d)
    ensures Late(p, calls) <= p.cycle + d
  {
    if calls != [] {
      var before := calls[..|calls| - 1];
      CycleStays(p, before);
      BackAfterStart(p, before);
      var q, now := PaceAfter(p, before), calls[|calls| - 1].now;
      StartAdvances(q, now);
      SleepsAtMostOneCycle(q, now);
    }
  }

  /** Any two returns of a run, i before j: at least j - i - 1 cycles apart when
      sleeps end on time, less the delay when they end late. */
  lemma WindowBound(p: Pace, calls: seq<Call>, d: nat, i: nat, j: nat)
    requires p.cycle >= 0 && Honest(p, calls) && Prompt(p, calls, d) && i < j <= |calls|
    ensures LastBack(p, calls[..j]) - LastBack(p, calls[..i]) >= Cycles(j - i - 1, p.cycle) - d
  {
    hide Cycles, Honest, Prompt, Late, LastBack;
    HonestPrefix(p, calls, j);
    HonestPrefix(p, calls, i);
    PromptPrefix(p, calls, d, i);
    assert calls[..j][..i] == calls[..i];
    ReturnsApart(p, calls[..j], i);
    LateAtMostACycle(p, calls[..i], d);
    OneCycleMore(j - i - 1, p.cycle);
  }

  lemma OneMore(p: Pace, calls: seq<Call>, c: Call, d: nat)
    requires Honest(p, calls) && Prompt(p, calls, d)
    requires c.now >= LastBack(p, calls)
    requires 0 <= c.back - c.now - SleepTime(PaceAfter(p, calls), c.now) <= d
    ensures Honest(p, calls + [c]) && Prompt(p, calls + [c], d)
    ensures PaceAfter(p, calls + [c]) == SleepAt(PaceAfter(p, calls), c.now)
    ensures LastBack(p, calls + [c]) == c.back
  {
    assert (calls + [c])[..|calls|] == calls;
  }

  /** An iteration of two cycles, then iterations that take no time. */
  function Hurry(p: Pace, n: nat): seq<Call> {
    if n == 0 then [Call(p.start + Cycles(2, p.cycle), p.start + Cycles(2, p.cycle))]
    else Hurry(p, n - 1) + [HurryCall(p, n)]
  }

  /** The n-th of them: made when the one before is back. */
  function HurryCall(p: Pace, n: nat): Call
    requires n > 0
  {
    Call(p.start + Cycles(if n == 1 then 2 else n, p.cycle), p.start + Cycles(n + 1, p.cycle))
  }

  /** The bound is reached, over any number of calls: after a call that is a cycle
      late, the next one comes back at once and the others a cycle apart. */
  lemma {:induction false} WindowBoundIsReached(p: Pace, n: nat)
    requires p.cycle >= 0
    ensures var calls := Hurry(p, n);
            && |calls| == n + 1 && calls[..1] == Hurry(p, 0)
            && Honest(p, calls) && Prompt(p, calls, 0)
            && (n > 0 ==> LastBack(p, calls) - LastBack(p, calls[..1]) == Cycles(n - 1, p.cycle))
    ensures PaceAfter(p, Hurry(p, n)).start == p.start + Cycles(n + 1, p.cycle)
    ensures LastBack(p, Hurry(p, n)) == p.start + Cycles(if n == 0 then 2 else n + 1, p.cycle)
  {
    hide Honest, Prompt, PaceAfter, Cycles;
    HurryFirst(p);
    if n == 0 {
    } else {
      WindowBoundIsReached(p, n - 1);
      HurryOneMore(p, Hurry(p, n - 1), n);
      assert Hurry(p, n)[..1] == Hurry(p, n - 1)[..1];
      CyclesLess(n, p.cycle);
    }
  }

  lemma CyclesLess(n: nat, cycle: int)
    ensures Cycles(n + 1, cycle) - Cycles(2, cycle) == Cycles(n - 1, cycle)
  {}

  lemma HurryFirst(p: Pace)
    requires p.cycle >= 0
    ensures var calls := Hurry(p, 0);
            && Honest(p, calls) && Prompt(p, calls, 0)
            && PaceAfter(p, calls).start == p.start + Cycles(1, p.cycle)
            && LastBack(p, calls) == p.start + Cycles(2, p.cycle)
  {
    hide Cycles;
    OneCycleMore(0, p.cycle);
    OneCycleMore(1, p.cycle);
    var t := p.start + Cycles(2, p.cycle);
    assert Honest(p, []) && Prompt(p, [], 0);
    OneMore(p, [], Call(t, t), 0);
    assert [] + [Call(t, t)] == [Call(t, t)];
  }

  lemma HurryOneMore(p: Pace, calls: seq<Call>, n: nat)
    requires n > 0 && p.cycle >= 0 && Honest(p, calls) && Prompt(p, calls, 0)
    requires PaceAfter(p, calls).start == p.start + Cycles(n, p.cycle)
    requires LastBack(p, calls) == p.start + Cycles(if n == 1 then 2 else n, p.cycle)
    ensures var more := calls + [HurryCall(p, n)];
            && Honest(p, more) && Prompt(p, more, 0)
            && PaceAfter(p, more).start == p.start + Cycles(n + 1, p.cycle)
            && LastBack(p, more) == p.start + Cycles(n + 1, p.cycle)
  {
    hide Honest, Prompt, PaceAfter, LastBack, Cycles;
    CycleStays(p, calls);
    OneCycleMore(n, p.cycle);
    OneCycleMore(1, p.cycle);
    OneMore(p, calls, HurryCall(p, n), 0);
  }

  /** No call found more than two cycles used up. */
  ghost predicate NeverReset(p: Pace, calls: seq<Call>) {
    calls != [] ==>
      var before, now := calls[..|calls| - 1], calls[|calls| - 1].now;
      NeverReset(p, before) && now <= PaceAfter(p, before).start + 2 * p.cycle
  }

  /** Without a reset the starts stay on the grid laid at the construction, however
      the iterations and the sleeps vary; and with a reset they leave it for good. */
  lemma {:induction false} DriftFree(p: Pace, calls: seq<Call>)
    requires p.cycle >= 0 && Honest(p, calls)
    ensures PaceAfter(p, calls).start == p.start + Cycles(|calls|, p.cycle) <==> NeverReset(p, calls)
  {
    hide Cycles, SleepAt, Honest;
    OneCycleMore(|calls| - 1, p.cycle);
    if calls == [] {
    } else {
      var n := |calls| - 1;
      var before := calls[..n];
      HonestLast(p, calls);
      DriftFree(p, before);
      StartsApart(p, before, 0);
      assert before[..0] == [];
      CycleStays(p, before);
      BackAfterStart(p, before);
      StartAdvances(PaceAfter(p, before), calls[n].now);
    }
  }

  /** Every call was made within the cycle, and every sleep was exact. */
  ghost predicate OnTime(p: Pace, calls: seq<Call>) {
    calls != [] ==>
      var before, c := calls[..|calls| - 1], calls[|calls| - 1];
      && OnTime(p, before)
      && LastBack(p, before) <= c.now <= LastBack(p, before) + p.cycle
      && c.back == c.now + SleepTime(PaceAfter(p, before), c.now)
  }

  /** Then the k-th return is exactly k cycles after the construction. */
  lemma {:induction false} ExactSchedule(p: Pace, calls: seq<Call>)
    requires p.cycle >= 0 && OnTime(p, calls)
    ensures LastBack(p, calls) == PaceAfter(p, calls).start == p.start + Cycles(|calls|, p.cycle)
  {
    hide Cycles;
    OneCycleMore(|calls| - 1, p.cycle);
    if calls == [] {
    } else {
      var n := |calls| - 1;
      ExactSchedule(p, calls[..n]);
      CycleStays(p, calls[..n]);
    }
  }

  // ------------------------------------------------------------------ throttle

  const TICKS_PER_MILLISECOND := 1_000_000

  /** fps: enc_framerate; last: encode_frame_timestamp_; pts: encode_frame_pts_. */
  datatype Throttle = Throttle(fps: int, last: int, pts: int)

  /** Whether a frame decoded at `now` is encoded. */
  predicate Accepts(t: Throttle, now: int) {
    t.fps > 0 ==> TruncDiv(now - t.last, TICKS_PER_MILLISECOND) >= 1000 / t.fps
  }

  function Offer(t: Throttle, now: int): Throttle {
    if !Accepts(t, now) then t
    else Throttle(t.fps, if t.fps > 0 then now else t.last, t.pts + 1)
  }

  datatype Encoded = Encoded(now: int, pts: int)

  /** The part of the encoder filter's SendPacket behind the decoder. */
  class StreamFilterVideoEnc {
    const encFramerate: int
    var encodeFrameTimestamp: int
    var encodeFramePts: int

    function Value(): Throttle
      reads this
    {
      Throttle(encFramerate, encodeFrameTimestamp, encodeFramePts)
    }

    constructor (framerate: int)
      ensures Value() == Throttle(framerate, 0, 0)
    {
      encFramerate, encodeFrameTimestamp, encodeFramePts := framerate, 0, 0;
    }

    /** sent: the frame handed to the encoder, if any. */
    method SendFrame(now: int) returns (ok: bool, sent: seq<Encoded>)
      modifies this
      ensures ok == Accepts(old(Value()), now) && Value() == Offer(old(Value()), now)
      ensures sent == if ok then [Encoded(now, old(encodeFramePts))] else []
      ensures encFramerate <= 0 ==> ok && encodeFrameTimestamp == old(encodeFrameTimestamp)
      ensures 0 < encFramerate <= 1000 ==>
              (ok <==> now - old(encodeFrameTimestamp) >= 1000 / encFramerate * 1_000_000)
      ensures encFramerate > 1000 ==> (ok <==> now - old(encodeFrameTimestamp) > -1_000_000)
      ensures encFramerate > 0 ==> encodeFrameTimestamp == if ok then now else old(encodeFrameTimestamp)
      ensures encodeFramePts == old(encodeFramePts) + if ok then 1 else 0
    {
      if encFramerate > 0 {
        AcceptsIffGap(Value(), now);
        var interval := TruncDiv(now - encodeFrameTimestamp, TICKS_PER_MILLISECOND);
        if interval < 1000 / encFramerate {
          return false, [];
        }
        encodeFrameTimestamp := now;
      }
      sent := [Encoded(now, encodeFramePts)];
      encodeFramePts := encodeFramePts + 1;
      ok := true;
    }
  }

  function ThrottleAfter(t: Throttle, times: seq<int>): Throttle {
    if times == [] then t else Offer(ThrottleAfter(t, times[..|times| - 1]), times[|times| - 1])
  }

  /** The frames encoded, out of the frames decoded at these times. */
  function Kept(t: Throttle, times: seq<int>): seq<Encoded> {
    if times == [] then []
    else
      var n := |times| - 1;
      var u := ThrottleAfter(t, times[..n]);
      Kept(t, times[..n]) + (if Accepts(u, times[n]) then [Encoded(times[n], u.pts)] else [])
  }

  /** The least time between two frames, in ticks: whole milliseconds, or, beyond
      1000 frames a second, a clock stepping back by less than one. */
  function Gap(fps: int): int
    requires fps > 0
  {
    if fps <= 1000 then (1000 / fps) * TICKS_PER_MILLISECOND else 1 - TICKS_PER_MILLISECOND
  }

  lemma AcceptsIffGap(t: Throttle, now: int)
    requires t.fps > 0
    ensures Accepts(t, now) <==> now - t.last >= Gap(t.fps)
  {
    var d, m := now - t.last, 1000 / t.fps;
    WholeMillis(t.fps);
    if d >= 0 {
      assert d / TICKS_PER_MILLISECOND >= m <==> d >= m * TICKS_PER_MILLISECOND;
    } else {
      assert TruncDiv(d, TICKS_PER_MILLISECOND) >= 0 <==> d > -TICKS_PER_MILLISECOND;
    }
  }

  lemma WholeMillis(fps: int)
    requires fps > 0
    ensures 1000 / fps >= 1 <==> fps <= 1000
    ensures 1000 / fps >= 0
  {}

  /** The frames are numbered one after the other from where the counter stood;
      the throttle's memory is the last of them. */
  lemma {:induction false} Numbered(t: Throttle, times: seq<int>)
    ensures forall i :: 0 <= i < |Kept(t, times)| ==> Kept(t, times)[i].pts == t.pts + i
    ensures ThrottleAfter(t, times).pts == t.pts + |Kept(t, times)|
    ensures ThrottleAfter(t, times).fps == t.fps
    ensures t.fps > 0 ==> ThrottleAfter(t, times).last == LastKept(t, times)
  {
    if times == [] {
    } else {
      Numbered(t, times[..|times| - 1]);
    }
  }

  /** Without a frame rate nothing is throttled: every frame is encoded, in order, and
      no time is remembered. */
  lemma {:induction false} KeepsAll(t: Throttle, times: seq<int>)
    requires t.fps <= 0
    ensures |Kept(t, times)| == |times| && ThrottleAfter(t, times) == Throttle(t.fps, t.last, t.pts + |times|)
    ensures forall i :: 0 <= i < |times| ==> Kept(t, times)[i] == Encoded(times[i], t.pts + i)
  {
    if times == [] {
    } else {
      KeepsAll(t, times[..|times| - 1]);
    }
  }

  function LastKept(t: Throttle, times: seq<int>): int {
    var k := Kept(t, times);
    if k == [] then t.last else k[|k| - 1].now
  }

  /** Any two frames encoded one after the other are a gap apart or more, and the
      first is from the time remembered before. */
  lemma {:induction false} KeptApart(t: Throttle, times: seq<int>, i: nat)
    requires t.fps > 0 && i < |Kept(t, times)|
    ensures Kept(t, times)[i].now - (if i == 0 then t.last else Kept(t, times)[i - 1].now) >= Gap(t.fps)
    decreases |times|
  {
    var n := |times| - 1;
    Numbered(t, times[..n]);
    if i < |Kept(t, times[..n])| {
      KeptApart(t, times[..n], i);
    } else {
      AcceptsIffGap(ThrottleAfter(t, times[..n]), times[n]);
    }
  }

  /** Choosing frames by hand: the times where choice is true. */
  function Chosen(times: seq<int>, choice: seq<bool>): seq<int>
    requires |choice| == |times|
  {
    if times == [] then []
    else
      var n := |times| - 1;
      Chosen(times[..n], choice[..n]) + (if choice[n] then [times[n]] else [])
  }

  function LastChosen(last: int, times: seq<int>, choice: seq<bool>): int
    requires |choice| == |times|
  {
    var c := Chosen(times, choice);
    if c == [] then last else c[|c| - 1]
  }

  /** Each chosen time is a gap or more from the one before. */
  ghost predicate Apart(last: int, times: seq<int>, choice: seq<bool>, gap: int)
    requires |choice| == |times|
  {
    times != [] ==>
      var n := |times| - 1;
      && Apart(last, times[..n], choice[..n], gap)
      && (choice[n] ==> times[n] - LastChosen(last, times[..n], choice[..n]) >= gap)
  }

  ghost predicate NonDecreasing(last: int, times: seq<int>) {
    && (times != [] ==> times[0] >= last)
    && (forall i, j :: 0 <= i < j < |times| ==> times[i] <= times[j])
  }

  /** No choice of frames a gap apart has more frames than the throttle keeps. */
  lemma KeepsTheMost(t: Throttle, times: seq<int>, choice: seq<bool>)
    requires t.fps > 0 && |choice| == |times| && NonDecreasing(t.last, times)
    requires Apart(t.last, times, choice, Gap(t.fps))
    ensures |Chosen(times, choice)| <= |Kept(t, times)|
  {
    StaysAhead(t, times, choice);
  }

  /** a, last: how many were chosen, and the last; b, kept: the throttle's. */
  predicate Ahead(a: nat, last: int, b: nat, kept: int) {
    a < b || (a == b && kept <= last)
  }

  /** One more time: whichever of the two takes it, the throttle stays ahead. */
  lemma AheadStep(a: nat, last: int, b: nat, kept: int, now: int, gap: int, choose: bool, keep: bool)
    requires Ahead(a, last, b, kept) && kept <= now
    requires choose ==> now - last >= gap
    requires keep <==> now - kept >= gap
    ensures Ahead(a + (if choose then 1 else 0), if choose then now else last,
                  b + (if keep then 1 else 0), if keep then now else kept)
  {}

  lemma KeptLast(t: Throttle, times: seq<int>)
    requires t.fps > 0 && times != []
    ensures var n := |times| - 1;
      var keep := times[n] - LastKept(t, times[..n]) >= Gap(t.fps);
      && |Kept(t, times)| == |Kept(t, times[..n])| + (if keep then 1 else 0)
      && LastKept(t, times) == if keep then times[n] else LastKept(t, times[..n])
  {
    hide Gap, Accepts;
    var n := |times| - 1;
    Numbered(t, times[..n]);
    AcceptsIffGap(ThrottleAfter(t, times[..n]), times[n]);
  }

  lemma ChosenLast(last: int, times: seq<int>, choice: seq<bool>)
    requires times != [] && |choice| == |times|
    ensures var n := |times| - 1;
      && |Chosen(times, choice)| == |Chosen(times[..n], choice[..n])| + (if choice[n] then 1 else 0)
      && LastChosen(last, times, choice) == if choice[n] then times[n] else LastChosen(last, times[..n], choice[..n])
  {}

  lemma {:induction false} StaysAhead(t: Throttle, times: seq<int>, choice: seq<bool>)
    requires t.fps > 0 && |choice| == |times| && NonDecreasing(t.last, times)
    requires Apart(t.last, times, choice, Gap(t.fps))
    ensures Ahead(|Chosen(times, choice)|, LastChosen(t.last, times, choice), |Kept(t, times)|, LastKept(t, times))
    ensures LastKept(t, times) <= if times == [] then t.last else times[|times| - 1]
    decreases |times|
  {
    hide Gap, Ahead;
    if times == [] {
      AheadStart(t.last);
    } else {
      hide Kept, LastKept, Chosen, LastChosen;
      var n := |times| - 1;
      StaysAhead(t, times[..n], choice[..n]);
      KeptLast(t, times);
      ChosenLast(t.last, times, choice);
      AheadStep(|Chosen(times[..n], choice[..n])|, LastChosen(t.last, times[..n], choice[..n]),
                |Kept(t, times[..n])|, LastKept(t, times[..n]), times[n], Gap(t.fps), choice[n],
                times[n] - LastKept(t, times[..n]) >= Gap(t.fps));
    }
  }

  lemma AheadStart(last: int)
    ensures Ahead(0, last, 0, last)
  {}
}
