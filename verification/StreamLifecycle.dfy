/**
 The stream thread (common/media/stream_thread.cc): which sequences of events its
 handlers can see.

 What the stream answers is given beforehand: a pass through `Run` has a number of
 rounds, and at most one fault, the action that throws a StreamError.
 */
module StreamLifecycle {
  import opened Options
  import opened Sequences

  /** kind: the position of the frame's media type among the wanted ones. */
  datatype Event = Open | Opened | Packet | Frame(kind: nat) | Loop | Close | Closed | Error

  /** An event for the handlers, or a call that tells them nothing. */
  datatype Action = Emit(event: Event) | Call

  /** The action that throws: its place among all; and whether the code is EOF. */
  datatype Fault = Fault(at: nat, eof: bool)

  /** One pass.  rounds[i][k]: whether round i finds a frame of kind k.  stop: another
      thread's Stop comes after the pass has tested is_running_ for the last time. */
  datatype Pass = Pass(rounds: seq<seq<bool>>, fault: Option<Fault>, stop: bool)

  /** types: how many media types are wanted; callback: a running callback is
      installed; loopOnEof; throwing: the handlers may throw too. */
  datatype Config = Config(types: nat, callback: bool, loopOnEof: bool, throwing: bool)

  // ------------------------------------------------------------------- one pass

  /** GetFrame for the first k types. */
  function Frames(found: seq<bool>, k: nat): seq<Action> {
    if k == 0 then []
    else Frames(found, k - 1) + [Call] + (if k <= |found| && found[k - 1] then [Emit(Frame(k - 1))] else [])
  }

  function Round(c: Config, found: seq<bool>): seq<Action> {
    if c.callback then [Call] else [Call, Emit(Packet)] + Frames(found, c.types)
  }

  function Body(c: Config, rounds: seq<seq<bool>>): seq<Action> {
    if rounds == [] then []
    else Body(c, rounds[..|rounds| - 1]) + Round(c, rounds[|rounds| - 1])
  }

  const OPENING := [Emit(Open), Call, Emit(Opened)]
  const CLOSING := [Emit(Close), Emit(Closed)]

  function Actions(c: Config, rounds: seq<seq<bool>>): seq<Action> {
    OPENING + Body(c, rounds) + CLOSING
  }

  function Events(actions: seq<Action>): seq<Event> {
    if actions == [] then []
    else
      var a := actions[|actions| - 1];
      Events(actions[..|actions| - 1]) + (if a.Emit? then [a.event] else [])
  }

  predicate Faulty(c: Config, p: Pass) {
    p.fault.Some? && p.fault.value.at < |Actions(c, p.rounds)|
  }

  /** What is done before the pass ends, the throwing action included. */
  function Done(c: Config, p: Pass): seq<Action> {
    if Faulty(c, p) then Actions(c, p.rounds)[..p.fault.value.at + 1] else Actions(c, p.rounds)
  }

  predicate Loops(c: Config, p: Pass) {
    Faulty(c, p) && c.loopOnEof && p.fault.value.eof
  }

  /** Only a call throws, unless the handlers may. */
  predicate Possible(c: Config, p: Pass) {
    Faulty(c, p) ==> c.throwing || Actions(c, p.rounds)[p.fault.value.at].Call?
  }

  function Trace(c: Config, run: seq<Pass>): seq<Event> {
    if run == [] then []
    else
      var t := Events(Done(c, run[0]));
      if Loops(c, run[0]) then t + [Loop] + Trace(c, run[1..])
      else if Faulty(c, run[0]) then t + [Error]
      else t
  }

  /** The pass has left its rounds, which it does when it finds is_running_ false. */
  predicate FoundStopped(c: Config, p: Pass) {
    Faulty(c, p) ==> p.fault.value.at >= 3 + |Body(c, p.rounds)|
  }

  /** is_running_ after the pass. */
  predicate StillOn(c: Config, on: bool, p: Pass) {
    on && !FoundStopped(c, p) && !p.stop
  }

  /** The run ends: with the first pass that does not loop.  on: is_running_; nothing
      sets it again, so once it is false no pass has a round. */
  predicate Ends(c: Config, on: bool, run: seq<Pass>)
    decreases |run|
  {
    && run != [] && Possible(c, run[0])
    && (on || run[0].rounds == [])
    && if Loops(c, run[0]) then Ends(c, StillOn(c, on, run[0]), run[1..]) else |run| == 1
  }

  // ----------------------------------------------------------------- the grammar

  /** Packets, each followed by frames of rising kind; nothing at all with a running
      callback. */
  ghost predicate InBody(c: Config, b: seq<Event>) {
    && (c.callback ==> b == [])
    && (forall i :: 0 <= i < |b| ==> Fits(c, b, i))
  }

  predicate Fits(c: Config, b: seq<Event>, i: nat)
    requires i < |b|
  {
    || b[i].Packet?
    || (b[i].Frame? && b[i].kind < c.types && i > 0
        && (b[i - 1].Packet? || (b[i - 1].Frame? && b[i - 1].kind < b[i].kind)))
  }

  /** A body as long as is_running_ has not been found false, then none. */
  ghost predicate BodyOk(c: Config, on: bool, b: seq<Event>) {
    InBody(c, b) && (on || b == [])
  }

  ghost predicate Whole(c: Config, on: bool, t: seq<Event>) {
    exists b :: BodyOk(c, on, b) && t == [Open, Opened] + b + [Close, Closed]
  }

  /** What handlers may have seen when a pass is left by a throw. */
  ghost predicate Broken(c: Config, on: bool, t: seq<Event>) {
    || t == [Open]
    || exists b :: BodyOk(c, on, b) && BrokenAfter(c, on, b, t)
  }

  /** Without rounds only a handler can throw after OPENED. */
  ghost predicate BrokenAfter(c: Config, on: bool, b: seq<Event>, t: seq<Event>) {
    || ((on || c.throwing) && t == [Open, Opened] + b)
    || (c.throwing && (t == [Open, Opened] + b + [Close] || t == [Open, Opened] + b + [Close, Closed]))
  }

  /** After a CLOSE every further pass has an empty body. */
  ghost predicate InLanguage(c: Config, on: bool, t: seq<Event>)
    decreases |t|
  {
    || Whole(c, on, t)
    || (t != [] && t[|t| - 1].Error? && Broken(c, on, t[..|t| - 1]))
    || (c.loopOnEof &&
        exists k :: 0 <= k < |t| && LoopsAt(c, on, t, k) && InLanguage(c, on && Close !in t[..k], t[k + 1..]))
  }

  ghost predicate LoopsAt(c: Config, on: bool, t: seq<Event>, k: nat)
    requires k < |t|
  {
    t[k].Loop? && Broken(c, on, t[..k])
  }

  // ---------------------------------------------------- every trace is in the grammar

  lemma {:induction false} EventsAppend(a: seq<Action>, b: seq<Action>)
    ensures Events(a + b) == Events(a) + Events(b)
    decreases |b|
  {
    if b == [] {
      assert a + b == a;
    } else {
      var n := |b| - 1;
      assert (a + b)[..|a + b| - 1] == a + b[..n];
      EventsAppend(a, b[..n]);
    }
  }

  lemma BodyAppend(c: Config, b: seq<Event>, r: seq<Event>)
    requires InBody(c, b) && InBody(c, r)
    ensures InBody(c, b + r)
  {
    var l := b + r;
    forall i | 0 <= i < |l| ensures Fits(c, l, i) {
      if i < |b| { assert Fits(c, b, i); } else { assert Fits(c, r, i - |b|); }
    }
  }

  /** After a packet: frames of rising kind below k. */
  ghost predicate Rising(fs: seq<Event>, k: nat) {
    && (forall i :: 0 <= i < |fs| ==> fs[i].Frame? && fs[i].kind < k)
    && (forall i :: 0 < i < |fs| ==> fs[i - 1].kind < fs[i].kind)
  }

  lemma RiseOne(fs: seq<Event>, last: seq<Event>, k: nat)
    requires k > 0 && Rising(fs, k - 1) && (last == [] || last == [Frame(k - 1)])
    ensures Rising(fs + last, k)
  {}

  lemma {:induction false} FramesRise(found: seq<bool>, k: nat, m: nat)
    requires m <= |Frames(found, k)|
    ensures Rising(Events(Frames(found, k)[..m]), k)
    decreases k
  {
    hide Events;
    assert Events([]) == [] by { FrameEvents(); }
    if k > 0 {
      var before := Frames(found, k - 1);
      if m <= |before| {
        FramesRise(found, k - 1, m);
        RiseOne(Events(before[..m]), [], k);
        assert Events(before[..m]) + [] == Events(before[..m]);
        assert Frames(found, k)[..m] == before[..m];
      } else {
        FramesRise(found, k - 1, |before|);
        assert before[..|before|] == before;
        var last := Frames(found, k)[..m][|before|..];
        assert Frames(found, k)[..m] == before + last;
        EventsAppend(before, last);
        assert last == [Call] || last == [Call, Emit(Frame(k - 1))];
        LastEvents(k - 1);
        RiseOne(Events(before), Events(last), k);
      }
    } else {
      assert Frames(found, k)[..m] == [];
    }
  }

  lemma LastEvents(k: nat)
    ensures Events([Call]) == [] && Events([Call, Emit(Frame(k))]) == [Frame(k)]
    ensures Events([]) == [] && Events([Emit(Frame(k))]) == [Frame(k)]
  {
    assert [Call, Emit(Frame(k))][..1] == [Call];
  }

  lemma RoundInBody(c: Config, found: seq<bool>, m: nat)
    requires m <= |Round(c, found)|
    ensures InBody(c, Events(Round(c, found)[..m]))
  {
    LastEvents(0);
    var r := Round(c, found)[..m];
    if m <= 1 {
      assert r == [] || r == [Call];
    } else {
      var fs := Frames(found, c.types);
      FramesRise(found, c.types, m - 2);
      assert r == [Call, Emit(Packet)] + fs[..m - 2];
      EventsAppend([Call, Emit(Packet)], fs[..m - 2]);
      assert Events([Call, Emit(Packet)]) == [Packet] by { assert [Call, Emit(Packet)][..1] == [Call]; }
    }
  }

  lemma NothingInBody(c: Config)
    ensures InBody(c, Events([]))
  {}

  lemma {:induction false} BodyPrefixInBody(c: Config, rounds: seq<seq<bool>>, m: nat)
    requires m <= |Body(c, rounds)|
    ensures InBody(c, Events(Body(c, rounds)[..m]))
    decreases |rounds|
  {
    hide Events, InBody, Round;
    if rounds != [] {
      var n := |rounds| - 1;
      var before := Body(c, rounds[..n]);
      if m <= |before| {
        BodyPrefixInBody(c, rounds[..n], m);
        assert Body(c, rounds)[..m] == before[..m];
      } else {
        BodyPrefixInBody(c, rounds[..n], |before|);
        assert before[..|before|] == before;
        var last := Round(c, rounds[n])[..m - |before|];
        RoundInBody(c, rounds[n], m - |before|);
        assert Body(c, rounds)[..m] == before + last;
        EventsAppend(before, last);
        BodyAppend(c, Events(before), Events(last));
      }
    } else {
      assert Body(c, rounds)[..m] == [];
      NothingInBody(c);
    }
  }

  lemma BodyInBody(c: Config, rounds: seq<seq<bool>>)
    ensures InBody(c, Events(Body(c, rounds)))
  {
    var body := Body(c, rounds);
    BodyPrefixInBody(c, rounds, |body|);
    assert body[..|body|] == body;
  }

  lemma FrameEvents()
    ensures Events([]) == []
    ensures Events(OPENING[..1]) == [Open] && Events(OPENING[..2]) == [Open]
    ensures Events(OPENING) == [Open, Opened]
    ensures Events(CLOSING[..1]) == [Close] && Events(CLOSING) == [Close, Closed]
  {
    assert OPENING[..1] == [Emit(Open)] && OPENING[..2] == [Emit(Open), Call];
    assert OPENING[..2][..1] == OPENING[..1] && OPENING[..1][..0] == [];
    assert CLOSING[..1] == [Emit(Close)] && CLOSING[..1][..0] == [];
  }

  /** The three parts of a pass, cut after n actions. */
  lemma CutActions(c: Config, rounds: seq<seq<bool>>, n: nat)
    requires n <= |Actions(c, rounds)|
    ensures var body := Body(c, rounds);
            Events(Actions(c, rounds)[..n]) ==
              if n <= 3 then Events(OPENING[..n])
              else if n <= 3 + |body| then [Open, Opened] + Events(body[..n - 3])
              else [Open, Opened] + Events(body) + Events(CLOSING[..n - 3 - |body|])
  {
    var body, all := Body(c, rounds), Actions(c, rounds);
    FrameEvents();
    if n <= 3 {
      assert all[..n] == OPENING[..n];
    } else if n <= 3 + |body| {
      assert all[..n] == OPENING + body[..n - 3];
      EventsAppend(OPENING, body[..n - 3]);
    } else {
      var last := CLOSING[..n - 3 - |body|];
      assert all[..n] == OPENING + body + last;
      EventsAppend(OPENING + body, last);
      EventsAppend(OPENING, body);
    }
  }

  lemma WholePass(c: Config, on: bool, rounds: seq<seq<bool>>)
    requires on || rounds == []
    ensures Whole(c, on, Events(Actions(c, rounds)))
  {
    var body, all := Body(c, rounds), Actions(c, rounds);
    BodyInBody(c, rounds);
    NoRounds(c);
    FrameEvents();
    EventsAppend(OPENING + body, CLOSING);
    EventsAppend(OPENING, body);
    hide InBody, Events, Body;
    assert BodyOk(c, on, Events(body)) && Events(all) == [Open, Opened] + Events(body) + [Close, Closed];
  }

  lemma NoRounds(c: Config)
    ensures Body(c, []) == [] && Events(Body(c, [])) == []
  {}

  lemma NoCloseInBody(c: Config, b: seq<Event>)
    requires InBody(c, b)
    ensures Close !in [Open] && Close !in [Open, Opened] + b
  {
    forall i | 0 <= i < |b| ensures b[i] != Close { assert Fits(c, b, i); }
  }

  /** A pass left at action n - 1: in the grammar, with a CLOSE exactly when it had
      found is_running_ false. */
  lemma BrokenPass(c: Config, on: bool, rounds: seq<seq<bool>>, n: nat)
    requires 0 < n <= |Actions(c, rounds)| && (c.throwing || Actions(c, rounds)[n - 1].Call?)
    requires on || rounds == []
    ensures Broken(c, on, Events(Actions(c, rounds)[..n]))
    ensures Close in Events(Actions(c, rounds)[..n]) <==> n > 3 + |Body(c, rounds)|
  {
    hide InBody, Events, Body;
    var body, all := Body(c, rounds), Actions(c, rounds);
    BodyInBody(c, rounds);
    NoRounds(c);
    FrameEvents();
    CutActions(c, rounds, n);
    var t := Events(all[..n]);
    if n <= 2 {
      NoCloseInBody(c, Events(body));
    } else if n <= 3 + |body| {
      var b := Events(body[..n - 3]);
      BodyPrefixInBody(c, rounds, n - 3);
      NoCloseInBody(c, b);
      assert OPENING[..3] == OPENING && body[..0] == [];
      assert t == [Open, Opened] + b;
      assert rounds == [] ==> n == 3 && all[2] == OPENING[2];
      assert BrokenAfter(c, on, b, t);
    } else {
      assert all[n - 1] == CLOSING[n - 4 - |body|];
      assert CLOSING[..2] == CLOSING;
      var last := Events(CLOSING[..n - 3 - |body|]);
      assert last[0] == Close && t[2 + |Events(body)|] == last[0];
      assert BrokenAfter(c, on, Events(body), t);
    }
  }

  lemma PassInGrammar(c: Config, on: bool, p: Pass)
    requires Possible(c, p) && (on || p.rounds == [])
    ensures Faulty(c, p) ==> Broken(c, on, Events(Done(c, p)))
    ensures Faulty(c, p) ==> (Close in Events(Done(c, p)) <==> FoundStopped(c, p))
    ensures !Faulty(c, p) ==> Whole(c, on, Events(Done(c, p)))
  {
    hide Broken, Whole, Events, Actions, Body;
    if Faulty(c, p) {
      BrokenPass(c, on, p.rounds, p.fault.value.at + 1);
    } else {
      WholePass(c, on, p.rounds);
    }
  }

  lemma BrokenGrows(c: Config, t: seq<Event>)
    ensures Broken(c, false, t) ==> Broken(c, true, t)
    ensures Whole(c, false, t) ==> Whole(c, true, t)
  {
    hide InBody;
    if Broken(c, false, t) && t != [Open] {
      var b :| BodyOk(c, false, b) && BrokenAfter(c, false, b, t);
      assert BodyOk(c, true, b) && BrokenAfter(c, true, b, t);
    }
    if Whole(c, false, t) {
      var b :| BodyOk(c, false, b) && t == [Open, Opened] + b + [Close, Closed];
      assert BodyOk(c, true, b);
    }
  }

  /** What can be shown without rounds can be shown when rounds are possible. */
  lemma {:induction false} LanguageGrows(c: Config, on: bool, t: seq<Event>)
    requires InLanguage(c, false, t)
    ensures InLanguage(c, on, t)
    decreases |t|
  {
    hide Broken, Whole;
    BrokenGrows(c, t);
    if Whole(c, false, t) {
    } else if t != [] && t[|t| - 1].Error? && Broken(c, false, t[..|t| - 1]) {
      BrokenGrows(c, t[..|t| - 1]);
    } else {
      var k :| 0 <= k < |t| && LoopsAt(c, false, t, k) && InLanguage(c, false, t[k + 1..]);
      BrokenGrows(c, t[..k]);
      LanguageGrows(c, on && Close !in t[..k], t[k + 1..]);
      assert LoopsAt(c, on, t, k);
    }
  }

  /** Whatever the stream does, and whenever the thread is stopped, a run that ends
      shows its handlers a word of the language. */
  lemma {:induction false} TracesInLanguage(c: Config, on: bool, run: seq<Pass>)
    requires Ends(c, on, run)
    ensures InLanguage(c, on, Trace(c, run))
    decreases |run|
  {
    hide Events, Done, Whole, Broken, Faulty, Possible, FoundStopped;
    PassInGrammar(c, on, run[0]);
    LoopsWhenFaulty(c, run[0]);
    var t, all := Events(Done(c, run[0])), Trace(c, run);
    if Loops(c, run[0]) {
      TracesInLanguage(c, StillOn(c, on, run[0]), run[1..]);
      var rest := Trace(c, run[1..]);
      if !StillOn(c, on, run[0]) { LanguageGrows(c, on && Close !in t, rest); }
      assert all == t + [Loop] + rest;
      assert all[..|t|] == t && all[|t| + 1..] == rest;
      assert LoopsAt(c, on, all, |t|);
    } else if Faulty(c, run[0]) {
      assert all[..|all| - 1] == t;
    }
  }

  lemma LoopsWhenFaulty(c: Config, p: Pass)
    ensures Loops(c, p) ==> Faulty(c, p) && c.loopOnEof
  {}

  predicate IsBody(e: Event) {
    e.Packet? || e.Frame?
  }

  /** In what a pass shows, body events come after OPENED and before a CLOSE. */
  ghost predicate BodyFirst(on: bool, t: seq<Event>) {
    && (forall j :: 0 <= j < |t| && IsBody(t[j]) ==> on)
    && (forall i, j :: 0 <= i < j < |t| && t[i].Close? ==> !IsBody(t[j]))
  }

  lemma PassBodyFirst(c: Config, on: bool, b: seq<Event>, end: seq<Event>)
    requires BodyOk(c, on, b) && end in [[], [Close], [Close, Closed]]
    ensures BodyFirst(on, [Open, Opened] + b + end)
  {
    NoCloseInBody(c, b);
    var t := [Open, Opened] + b + end;
    var front := [Open, Opened] + b;
    forall i | 0 <= i < |front| ensures t[i] == front[i] && t[i] != Close {
      assert front[i] in front;
    }
  }

  lemma BrokenBodyFirst(c: Config, on: bool, t: seq<Event>)
    requires Broken(c, on, t)
    ensures BodyFirst(on, t)
  {
    hide BodyFirst, BodyOk;
    if t == [Open] {
      OpenBodyFirst(on);
    } else {
      var b :| BodyOk(c, on, b) && BrokenAfter(c, on, b, t);
      assert [Open, Opened] + b + [] == [Open, Opened] + b;
      PassBodyFirst(c, on, b, []);
      PassBodyFirst(c, on, b, [Close]);
      PassBodyFirst(c, on, b, [Close, Closed]);
    }
  }

  lemma OpenBodyFirst(on: bool)
    ensures BodyFirst(on, [Open])
  {}

  lemma JoinBodyFirst(on: bool, t: seq<Event>, e: Event, rest: seq<Event>)
    requires BodyFirst(on, t) && !IsBody(e) && !e.Close?
    requires BodyFirst(on && Close !in t, rest)
    ensures BodyFirst(on, t + [e] + rest)
  {
    var all := t + [e] + rest;
    forall j | 0 <= j < |all| && IsBody(all[j]) ensures on {
      assert all[j] == if j < |t| then t[j] else rest[j - |t| - 1];
    }
    assert all[|t|] == e;
    forall i, j | 0 <= i < j < |all| && all[i].Close? && i < |t| ensures !IsBody(all[j]) {
      assert all[i] == t[i];
      assert j < |t| ==> all[j] == t[j];
      assert j > |t| ==> all[j] == rest[j - |t| - 1];
    }
    forall i, j | 0 <= i < j < |rest| && rest[i].Close? ensures !IsBody(rest[j]) {}
    forall i, j | |t| < i < j < |all| && all[i].Close? ensures !IsBody(all[j]) {
      assert all[i] == rest[i - |t| - 1] && all[j] == rest[j - |t| - 1];
    }
  }

  /** No packet and no frame is shown after a CLOSE, however often the thread loops;
      none at all when is_running_ was found false before. */
  lemma {:induction false} QuietAfterClose(c: Config, on: bool, t: seq<Event>)
    requires InLanguage(c, on, t)
    ensures BodyFirst(on, t)
    decreases |t|
  {
    hide BodyFirst, Broken, BodyOk;
    if Whole(c, on, t) {
      var b :| BodyOk(c, on, b) && t == [Open, Opened] + b + [Close, Closed];
      PassBodyFirst(c, on, b, [Close, Closed]);
    } else if t != [] && t[|t| - 1].Error? && Broken(c, on, t[..|t| - 1]) {
      var n := |t| - 1;
      BrokenBodyFirst(c, on, t[..n]);
      NothingBodyFirst(on && Close !in t[..n]);
      JoinBodyFirst(on, t[..n], Error, []);
      assert t == t[..n] + [Error] + [];
    } else {
      var k :| 0 <= k < |t| && LoopsAt(c, on, t, k) && InLanguage(c, on && Close !in t[..k], t[k + 1..]);
      BrokenBodyFirst(c, on, t[..k]);
      QuietAfterClose(c, on && Close !in t[..k], t[k + 1..]);
      JoinBodyFirst(on, t[..k], Loop, t[k + 1..]);
      assert t == t[..k] + [Loop] + t[k + 1..];
    }
  }

  /** A pass during which another thread stopped, however it was left, is the last one
      with a round: what is shown after it has no packet and no frame. */
  lemma {:induction false} QuietAfterStop(c: Config, on: bool, run: seq<Pass>, i: nat)
    requires Ends(c, on, run) && i < |run| && run[i].stop
    ensures forall e :: e in Trace(c, run[i + 1..]) ==> !e.Packet? && !e.Frame?
    decreases i
  {
    hide FoundStopped, Possible, Faulty, Events, Done, InLanguage, Whole, Broken;
    if i > 0 {
      assert run[1..][i - 1] == run[i] && run[1..][i..] == run[i + 1..];
      QuietAfterStop(c, StillOn(c, on, run[0]), run[1..], i - 1);
    } else if |run| == 1 {
      assert run[1..] == [];
    } else {
      TracesInLanguage(c, false, run[1..]);
      QuietAfterClose(c, false, Trace(c, run[1..]));
    }
  }

  lemma NothingBodyFirst(on: bool)
    ensures BodyFirst(on, [])
  {}

  // ------------------------------------------- every word of the grammar is a trace

  function Times(n: nat): (r: seq<bool>)
    ensures |r| == n && forall i :: 0 <= i < n ==> !r[i]
  {
    if n == 0 then [] else Times(n - 1) + [false]
  }

  /** No frame of kinds |found| to k - 1, and one of kind k. */
  function Plus(found: seq<bool>, k: nat): seq<bool>
    requires |found| <= k
  {
    found + Times(k - |found|) + [true]
  }

  lemma {:induction false} PlusFrame(found: seq<bool>, k: nat, n: nat)
    requires |found| <= k
    ensures Events(Frames(Plus(found, k), n)) == Events(Frames(found, n)) + (if n > k then [Frame(k)] else [])
    decreases n
  {
    hide Events;
    var more := Plus(found, k);
    FrameEvents();
    if n == 0 {
    } else {
      PlusFrame(found, k, n - 1);
      FrameBlock(found, n);
      FrameBlock(more, n);
      assert n <= |more| ==> more[n - 1] == if n <= |found| then found[n - 1] else n - 1 == k;
      hide Frames, Plus;
    }
  }

  lemma FrameBlock(found: seq<bool>, n: nat)
    requires n > 0
    ensures Events(Frames(found, n)) ==
            Events(Frames(found, n - 1)) + (if n <= |found| && found[n - 1] then [Frame(n - 1)] else [])
  {
    hide Events;
    var before, last := Frames(found, n - 1), if n <= |found| && found[n - 1] then [Emit(Frame(n - 1))] else [];
    LastEvents(n - 1);
    EventsAppend(before + [Call], last);
    EventsAppend(before, [Call]);
  }

  lemma RoundEvents(c: Config, found: seq<bool>)
    requires !c.callback
    ensures Events(Round(c, found)) == [Packet] + Events(Frames(found, c.types))
  {
    EventsAppend([Call, Emit(Packet)], Frames(found, c.types));
    assert [Call, Emit(Packet)][..1] == [Call] && [Call][..0] == [];
  }

  lemma BodyOneMore(c: Config, rounds: seq<seq<bool>>, found: seq<bool>)
    ensures Body(c, rounds + [found]) == Body(c, rounds) + Round(c, found)
  {
    assert (rounds + [found])[..|rounds|] == rounds;
  }

  lemma BodyEvents(c: Config, rounds: seq<seq<bool>>, found: seq<bool>)
    ensures Events(Body(c, rounds + [found])) == Events(Body(c, rounds)) + Events(Round(c, found))
  {
    assert (rounds + [found])[..|rounds|] == rounds;
    EventsAppend(Body(c, rounds), Round(c, found));
  }

  /** After which kind the body may go on, in this round. */
  function NextKind(b: seq<Event>): nat {
    if b != [] && b[|b| - 1].Frame? then b[|b| - 1].kind + 1 else 0
  }

  lemma {:induction false} NoFrames(k: nat)
    ensures Events(Frames([], k)) == []
  {
    if k == 0 {
    } else {
      NoFrames(k - 1); FrameBlock([], k);
    }
  }

  lemma InBodyPrefix(c: Config, b: seq<Event>)
    requires InBody(c, b) && b != []
    ensures !c.callback && InBody(c, b[..|b| - 1]) && Fits(c, b, |b| - 1)
  {
    var a := b[..|b| - 1];
    forall i | 0 <= i < |a| ensures Fits(c, a, i) { assert Fits(c, b, i); }
  }

  /** Rounds that show just this body. */
  lemma {:induction false} RoundsFor(c: Config, b: seq<Event>) returns (rounds: seq<seq<bool>>)
    requires InBody(c, b)
    ensures Events(Body(c, rounds)) == b
    ensures if b == [] then rounds == [] else rounds != [] && |rounds[|rounds| - 1]| == NextKind(b)
    decreases |b|
  {
    hide Events, InBody, Body;
    if b == [] {
      rounds := [];
      NoRounds(c);
    } else {
      var n := |b| - 1;
      InBodyPrefix(c, b);
      var before := RoundsFor(c, b[..n]);
      assert b == b[..n] + [b[n]];
      if b[n].Packet? {
        rounds := before + [[]];
        AddPacket(c, before);
      } else {
        var m := |before| - 1;
        rounds := before[..m] + [Plus(before[m], b[n].kind)];
        AddFrame(c, before, b[n].kind);
      }
    }
  }

  lemma AddPacket(c: Config, rounds: seq<seq<bool>>)
    requires !c.callback
    ensures Events(Body(c, rounds + [[]])) == Events(Body(c, rounds)) + [Packet]
  {
    hide Events, Body;
    BodyEvents(c, rounds, []);
    RoundEvents(c, []);
    NoFrames(c.types);
  }

  lemma AddFrame(c: Config, rounds: seq<seq<bool>>, k: nat)
    requires !c.callback && k < c.types && rounds != [] && |rounds[|rounds| - 1]| <= k
    ensures var m := |rounds| - 1;
            Events(Body(c, rounds[..m] + [Plus(rounds[m], k)])) == Events(Body(c, rounds)) + [Frame(k)]
  {
    hide Events, Body, Frames, Plus;
    var m := |rounds| - 1;
    var found := rounds[m];
    assert rounds == rounds[..m] + [found];
    BodyEvents(c, rounds[..m], found);
    BodyEvents(c, rounds[..m], Plus(found, k));
    RoundEvents(c, found);
    RoundEvents(c, Plus(found, k));
    PlusFrame(found, k, c.types);
    hide Round;
    Assoc([Packet], Events(Frames(found, c.types)), [Frame(k)]);
    Assoc(Events(Body(c, rounds[..m])), Events(Round(c, found)), [Frame(k)]);
  }

  /** p is a possible pass, left by a throw with this code after these events. */
  ghost predicate Breaks(c: Config, on: bool, p: Pass, eof: bool, t: seq<Event>) {
    && Possible(c, p) && Faulty(c, p) && p.fault.value.eof == eof && (on || p.rounds == [])
    && Events(Done(c, p)) == t && (FoundStopped(c, p) <==> Close in t) && !p.stop
  }

  /** A pass left by a throw, for each way the grammar has; eof: the code. */
  lemma PassForBroken(c: Config, on: bool, t: seq<Event>, eof: bool) returns (p: Pass)
    requires Broken(c, on, t)
    ensures Breaks(c, on, p, eof, t)
  {
    hide Events, Body, InBody, Breaks;
    if t == [Open] {
      p := BreakAtOpen(c, on, eof);
    } else {
      var b :| BodyOk(c, on, b) && BrokenAfter(c, on, b, t);
      var rounds := RoundsFor(c, b);
      assert [Close, Closed][..1] == [Close] && [Close, Closed][..2] == [Close, Closed];
      if t == [Open, Opened] + b {
        if on {
          p := BreakInRound(c, rounds, b, eof);
        } else {
          assert [Open, Opened] + b == [Open, Opened] + [];
          p := BreakAtOpened(c, eof);
        }
      } else {
        p := BreakAtClose(c, on, rounds, b, if t == [Open, Opened] + b + [Close] then 1 else 2, eof);
      }
    }
  }

  lemma BreakAtOpen(c: Config, on: bool, eof: bool) returns (p: Pass)
    ensures Breaks(c, on, p, eof, [Open])
  {
    hide Events, Body;
    p := Pass([], Some(Fault(1, eof)), false);
    FrameEvents();
    CutActions(c, [], 2);
  }

  /** A handler throws on OPENED. */
  lemma BreakAtOpened(c: Config, eof: bool) returns (p: Pass)
    requires c.throwing
    ensures Breaks(c, false, p, eof, [Open, Opened] + [])
  {
    hide Events, Body;
    p := Pass([], Some(Fault(2, eof)), false);
    FrameEvents();
    CutActions(c, [], 3);
    assert OPENING[..3] == OPENING;
  }

  /** A handler throws on CLOSE or on CLOSED. */
  lemma BreakAtClose(c: Config, on: bool, rounds: seq<seq<bool>>, b: seq<Event>, k: nat, eof: bool) returns (p: Pass)
    requires c.throwing && 1 <= k <= 2 && (on || rounds == []) && Events(Body(c, rounds)) == b
    ensures Breaks(c, on, p, eof, [Open, Opened] + b + [Close, Closed][..k])
  {
    hide Events, Body;
    var n := 3 + |Body(c, rounds)| + k;
    p := Pass(rounds, Some(Fault(n - 1, eof)), false);
    FrameEvents();
    CutActions(c, rounds, n);
    assert CLOSING[..2] == CLOSING && [Close, Closed][..2] == [Close, Closed] && [Close, Closed][..1] == [Close];
    assert ([Open, Opened] + b + [Close, Closed][..k])[2 + |b|] == Close;
  }

  /** One more round, whose first call throws. */
  lemma BreakInRound(c: Config, rounds: seq<seq<bool>>, b: seq<Event>, eof: bool) returns (p: Pass)
    requires Events(Body(c, rounds)) == b && InBody(c, b)
    ensures Breaks(c, true, p, eof, [Open, Opened] + b)
  {
    hide Events, Body, Round;
    var body, more := Body(c, rounds), rounds + [[]];
    var n := 3 + |body| + 1;
    p := Pass(more, Some(Fault(n - 1, eof)), false);
    BodyOneMore(c, rounds, []);
    FirstCall(c);
    assert Body(c, more)[..n - 3] == body + [Call];
    assert Actions(c, more)[n - 1] == Call;
    CutActions(c, more, n);
    EventsAppend(body, [Call]);
    LastEvents(0);
    NoCloseInBody(c, b);
  }

  lemma FirstCall(c: Config)
    ensures var r := Round(c, []); r != [] && r[0] == Call
  {}

  lemma PassForWhole(c: Config, on: bool, t: seq<Event>) returns (p: Pass)
    requires Whole(c, on, t)
    ensures Possible(c, p) && !Faulty(c, p) && Events(Done(c, p)) == t && (on || p.rounds == [])
  {
    var b :| BodyOk(c, on, b) && t == [Open, Opened] + b + [Close, Closed];
    hide Events, Body, InBody;
    var rounds := RoundsFor(c, b);
    p := Pass(rounds, None, false);
    FrameEvents();
    var body := Body(c, rounds);
    EventsAppend(OPENING + body, CLOSING);
    EventsAppend(OPENING, body);
  }

  lemma TraceLast(c: Config, on: bool, p: Pass)
    requires Possible(c, p) && !Loops(c, p) && (on || p.rounds == [])
    ensures Ends(c, on, [p])
    ensures Trace(c, [p]) == Events(Done(c, p)) + (if Faulty(c, p) then [Error] else [])
  {
    hide Events, Done, Possible, Faulty, FoundStopped;
  }

  lemma TraceFirst(c: Config, on: bool, p: Pass, rest: seq<Pass>)
    requires Possible(c, p) && Loops(c, p) && (on || p.rounds == [])
    requires Ends(c, StillOn(c, on, p), rest)
    ensures Ends(c, on, [p] + rest)
    ensures Trace(c, [p] + rest) == Events(Done(c, p)) + [Loop] + Trace(c, rest)
  {
    hide Events, Done, Possible, Faulty, FoundStopped;
    assert ([p] + rest)[1..] == rest;
  }

  /** And the handlers can be shown every word of the language: some stream, some
      moment to stop, and some errors lead to it. */
  lemma {:induction false} LanguageInTraces(c: Config, on: bool, t: seq<Event>) returns (run: seq<Pass>)
    requires InLanguage(c, on, t)
    ensures Ends(c, on, run) && Trace(c, run) == t
    decreases |t|
  {
    hide Events, Done, Broken, Possible, Faulty, Whole, Trace, Ends, FoundStopped;
    if Whole(c, on, t) {
      var p := PassForWhole(c, on, t);
      LoopsWhenFaulty(c, p);
      TraceLast(c, on, p);
      run := [p];
    } else if t != [] && t[|t| - 1].Error? && Broken(c, on, t[..|t| - 1]) {
      var p := PassForBroken(c, on, t[..|t| - 1], false);
      TraceLast(c, on, p);
      run := [p];
      assert t == t[..|t| - 1] + [Error];
    } else {
      var k :| 0 <= k < |t| && LoopsAt(c, on, t, k) && InLanguage(c, on && Close !in t[..k], t[k + 1..]);
      var p := PassForBroken(c, on, t[..k], true);
      var rest := LanguageInTraces(c, on && Close !in t[..k], t[k + 1..]);
      TraceFirst(c, on, p, rest);
      run := [p] + rest;
      assert t == t[..k] + [Loop] + t[k + 1..];
    }
  }

  // ------------------------------------------------------------------ the class

  lemma {:induction false} FramesUpTo(found: seq<bool>, k: nat, n: nat)
    requires k <= n
    ensures Frames(found, k) <= Frames(found, n)
    decreases n
  {
    if k == n {
    } else {
      FramesUpTo(found, k, n - 1);
    }
  }

  lemma {:induction false} BodyUpTo(c: Config, rounds: seq<seq<bool>>, i: nat)
    requires i <= |rounds|
    ensures Body(c, rounds[..i]) <= Body(c, rounds)
    decreases |rounds|
  {
    if i < |rounds| {
      assert rounds[..|rounds| - 1][..i] == rounds[..i];
      BodyUpTo(c, rounds[..|rounds| - 1], i);
    } else {
      assert rounds[..i] == rounds;
    }
  }

  /** Round i in its place. */
  lemma RoundInPlace(c: Config, rounds: seq<seq<bool>>, i: nat)
    requires i < |rounds|
    ensures Body(c, rounds[..i + 1]) == Body(c, rounds[..i]) + Round(c, rounds[i])
    ensures OPENING + (Body(c, rounds[..i]) + Round(c, rounds[i])) <= Actions(c, rounds)
    ensures |Body(c, rounds[..i])| + |Round(c, rounds[i])| <= |Body(c, rounds)|
  {
    assert rounds[..i + 1] == rounds[..i] + [rounds[i]];
    BodyOneMore(c, rounds[..i], rounds[i]);
    BodyUpTo(c, rounds, i + 1);
    hide Body, Round;
    var a, b := Body(c, rounds[..i]) + Round(c, rounds[i]), Body(c, rounds);
    assert OPENING + a == (OPENING + b)[..3 + |a|];
  }

  class StreamThread {
    const config: Config
    /** What the event handler has been given. */
    var events: seq<Event>
    var isRunning: bool
    var step: nat
    ghost var done: seq<Action>

    constructor (config: Config)
      ensures this.config == config && events == [] && !isRunning
    {
      this.config, events, isRunning, step, done := config, [], false, 0, [];
    }

    /** ok: no exception; started: a thread is started on Run. */
    method Start(frequency: int) returns (ok: bool, started: bool)
      modifies this`isRunning
      ensures ok == (frequency > 0) && started == (ok && !old(isRunning))
      ensures isRunning == (old(isRunning) || ok)
    {
      if frequency <= 0 { return false, false; }
      if isRunning { return true, false; }
      isRunning := true;
      return true, true;
    }

    /** In the middle of the pass, the events before it being `base`. */
    ghost predicate Doing(p: Pass, base: seq<Event>)
      reads `step, `done, `events
    {
      && step == |done| && done <= Actions(config, p.rounds)
      && events == base + Events(done)
      && (p.fault.Some? ==> step <= p.fault.value.at)
    }

    /** One action, which throws if the pass says so. */
    method Act(a: Action, p: Pass, ghost base: seq<Event>) returns (thrown: bool)
      requires Doing(p, base) && done + [a] <= Actions(config, p.rounds)
      modifies this`done, this`events, this`step
      ensures done == old(done) + [a]
      ensures !thrown ==> Doing(p, base)
      ensures thrown ==> Faulty(config, p) && events == base + Events(Done(config, p))
      ensures thrown ==> p.fault.value.at == |old(done)|
    {
      hide Actions;
      EventsOfOne(done, a);
      done := done + [a];
      if a.Emit? {
        events := events + [a.event];
      }
      thrown := p.fault.Some? && p.fault.value.at == step;
      step := step + 1;
      assert done == Actions(config, p.rounds)[..step];
    }

    /** The frames of one round: the loop over the wanted types. */
    method GetFrames(found: seq<bool>, p: Pass, ghost base: seq<Event>, ghost before: seq<Action>)
      returns (thrown: bool)
      requires Doing(p, base) && done == before
      requires before + Frames(found, config.types) <= Actions(config, p.rounds)
      modifies this`done, this`events, this`step
      ensures thrown ==> Faulty(config, p) && events == base + Events(Done(config, p))
      ensures thrown ==> p.fault.value.at < |before| + |Frames(found, config.types)|
      ensures !thrown ==> Doing(p, base) && done == before + Frames(found, config.types)
    {
      hide Actions, Doing, Faulty, Done;
      for k := 0 to config.types
        invariant Doing(p, base) && done == before + Frames(found, k)
      {
        FramesUpTo(found, k + 1, config.types);
        ghost var part := Frames(found, k + 1);
        assert before + part <= before + Frames(found, config.types);
        thrown := Act(Call, p, base);
        if thrown { return; }
        if k < |found| && found[k] {
          thrown := Act(Emit(Frame(k)), p, base);
          if thrown { return; }
        }
        assert done == before + part;
      }
      return false;
    }

    /** The try block: thrown: a StreamError has left it. */
    method RunOnce(p: Pass) returns (thrown: bool)
      requires isRunning || p.rounds == []
      modifies this
      ensures thrown == Faulty(config, p)
      ensures events == old(events) + Events(Done(config, p))
      ensures isRunning == StillOn(config, old(isRunning), p)
      ensures p.stop ==> !isRunning
    {
      thrown := TryBlock(p);
      if p.stop {
        StopFlag();
      }
    }

    /** Another thread's Stop, up to the join. */
    method StopFlag()
      modifies this`isRunning
      ensures !isRunning
    {
      isRunning := false;
    }

    /** Another thread's Stop comes, at the latest, when the rounds are done. */
    method TryBlock(p: Pass) returns (thrown: bool)
      requires isRunning || p.rounds == []
      modifies this
      ensures thrown == Faulty(config, p)
      ensures events == old(events) + Events(Done(config, p))
      ensures isRunning == (old(isRunning) && !FoundStopped(config, p))
    {
      hide Actions, Events, Body, Frames;
      ghost var base := events;
      step, done := 0, [];
      PassParts(config, p.rounds);
      thrown := Act(Emit(Open), p, base);
      if thrown { return; }
      thrown := Act(Call, p, base);
      if thrown { return; }
      thrown := Act(Emit(Opened), p, base);
      if thrown { return; }
      thrown := RunRounds(p, base);
      if thrown { return; }
      thrown := Act(Emit(Close), p, base);
      if thrown { return; }
      thrown := Act(Emit(Closed), p, base);
      if thrown { return; }
      assert done == Actions(config, p.rounds);
    }

    /** The while loop. */
    method RunRounds(p: Pass, ghost base: seq<Event>) returns (thrown: bool)
      requires isRunning || p.rounds == []
      requires Doing(p, base) && done == OPENING
      modifies this
      ensures thrown ==> Faulty(config, p) && events == base + Events(Done(config, p))
      ensures thrown ==> isRunning == old(isRunning) && !FoundStopped(config, p)
      ensures !thrown ==> Doing(p, base) && done == OPENING + Body(config, p.rounds) && !isRunning
    {
      hide Actions, Events, Frames, Doing, Body;
      NoRounds(config);
      assert p.rounds[..0] == [];
      var i := 0;
      while true
        invariant i <= |p.rounds| && Doing(p, base) && done == OPENING + Body(config, p.rounds[..i])
        invariant isRunning == old(isRunning)
        decreases |p.rounds| - i
      {
        if i == |p.rounds| {
          StopFlag();
        }
        if !isRunning {
          assert p.rounds[..i] == p.rounds;
          return false;
        }
        thrown := RunRound(p, i, base);
        if thrown { return; }
        i := i + 1;
      }
    }

    /** The loop's body. */
    method RunRound(p: Pass, i: nat, ghost base: seq<Event>) returns (thrown: bool)
      requires i < |p.rounds| && Doing(p, base) && done == OPENING + Body(config, p.rounds[..i])
      modifies this`done, this`events, this`step
      ensures thrown ==> Faulty(config, p) && events == base + Events(Done(config, p))
      ensures thrown ==> !FoundStopped(config, p)
      ensures !thrown ==> Doing(p, base) && done == OPENING + Body(config, p.rounds[..i + 1])
    {
      hide Actions, Body, Events, Frames, Doing, Faulty, Done;
      ghost var before, round := done, Round(config, p.rounds[i]);
      RoundInPlace(config, p.rounds, i);
      Assoc(OPENING, Body(config, p.rounds[..i]), round);
      thrown := Act(Call, p, base);
      if thrown { return; }
      if config.callback {
        return false;
      }
      thrown := Act(Emit(Packet), p, base);
      if thrown { return; }
      Assoc(before, [Call, Emit(Packet)], Frames(p.rounds[i], config.types));
      thrown := GetFrames(p.rounds[i], p, base, done);
    }

    /** Run, when it ends: it calls itself again at the end of the stream. */
    method Run(run: seq<Pass>)
      requires Ends(config, isRunning, run)
      modifies this
      ensures events == old(events) + Trace(config, run)
      ensures isRunning == (old(isRunning) && forall i :: 0 <= i < |run| ==> StillOn(config, true, run[i]))
      decreases |run|
    {
      hide Events, Done, Faulty, FoundStopped, Trace, Ends, Loops;
      var loop := false;
      RunParts(config, isRunning, run);
      Throughout(config, run);
      ghost var base, t := events, Events(Done(config, run[0]));
      var thrown := RunOnce(run[0]);
      if thrown {
        if config.loopOnEof && run[0].fault.value.eof {
          events := events + [Loop];
          loop := true;
        } else {
          events := events + [Error];
        }
      }
      if loop {
        Run(run[1..]);
        Assoc(base, t + [Loop], Trace(config, run[1..]));
        Assoc(base, t, [Loop]);
      } else if thrown {
        Assoc(base, t, [Error]);
      }
    }
  }

  lemma RunParts(c: Config, on: bool, run: seq<Pass>)
    requires Ends(c, on, run)
    ensures run != [] && (on || run[0].rounds == [])
    ensures Faulty(c, run[0]) ==> run[0].fault.Some?
    ensures var t, loop := Events(Done(c, run[0])), Faulty(c, run[0]) && c.loopOnEof && run[0].fault.value.eof;
      && (if loop then Ends(c, StillOn(c, on, run[0]), run[1..]) else run[1..] == [])
      && Trace(c, run) == if loop then t + [Loop] + Trace(c, run[1..])
                          else if Faulty(c, run[0]) then t + [Error] else t
  {
    hide Events, Done, FoundStopped, Possible, Actions;
  }

  lemma Throughout(c: Config, run: seq<Pass>)
    requires run != []
    ensures (forall i :: 0 <= i < |run| ==> StillOn(c, true, run[i]))
            <==> StillOn(c, true, run[0]) && forall i :: 0 <= i < |run[1..]| ==> StillOn(c, true, run[1..][i])
  {
    hide StillOn;
    assert run == [run[0]] + run[1..];
  }

  lemma EventsOfOne(done: seq<Action>, a: Action)
    ensures Events(done + [a]) == Events(done) + (if a.Emit? then [a.event] else [])
  {
    assert (done + [a])[..|done|] == done;
  }

  lemma PassParts(c: Config, rounds: seq<seq<bool>>)
    ensures Actions(c, rounds) == OPENING + Body(c, rounds) + CLOSING
    ensures Body(c, rounds[..0]) == [] && Events([]) == []
  {}
}
