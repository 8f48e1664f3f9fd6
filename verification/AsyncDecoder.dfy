/**
 The asynchronous decoder (ws-wasm-player/src/decoder.h): packets arrive on the
 main thread, a worker grabs them in batches and decodes, the main thread hands
 the frames to the callback.

 The steps are the stretches of `DecodeAsync`, `ThreadStop` and `ThreadRun` that
 run under one lock or none.  What the codec makes of a packet is the step's own.
 */
module AsyncDecoder {
  import opened Options
  import opened Sequences

  /** One arrived packet; id: the how-many-th arrival it was. */
  datatype Data<P> = Data(id: nat, key: bool, packet: P)

  /** What GetFrame answers: a frame, nothing yet, or a StreamError. */
  datatype Outcome<F> = Frame(frame: F) | NeedMore | Failed

  /** batch: the how-many-th batch it was made in. */
  datatype Attempt<P, F> = Attempt(data: Data<P>, outcome: Outcome<F>, batch: nat)

  /** Why a packet was given up: with which batch, and whether decode_stop_ was set. */
  datatype Reason = Reason(batch: nat, stopping: bool)

  // ----------------------------------------------------------------- eviction

  predicate AllKeys<P>(q: seq<Data<P>>) {
    forall i :: 0 <= i < |q| ==> q[i].key
  }

  /** The position of the oldest packet that is not a key packet. */
  function OldestNonKey<P>(q: seq<Data<P>>): (k: nat)
    ensures k <= |q| && AllKeys(q[..k]) && (k < |q| ==> !q[k].key)
  {
    if q == [] || !q[0].key then 0 else 1 + OldestNonKey(q[1..])
  }

  function Without<T>(q: seq<T>, k: nat): seq<T>
    requires k < |q|
  {
    q[..k] + q[k + 1..]
  }

  /** The queue when it has grown beyond max: the oldest non-key packet goes. */
  function Evict<P>(q: seq<Data<P>>, max: nat): seq<Data<P>> {
    if |q| > max && OldestNonKey(q) < |q| then Without(q, OldestNonKey(q)) else q
  }

  function Evicted<P>(q: seq<Data<P>>, max: nat): seq<Data<P>> {
    if |q| > max && OldestNonKey(q) < |q| then [q[OldestNonKey(q)]] else []
  }

  ghost predicate Bounded<P>(q: seq<Data<P>>, max: nat) {
    |q| <= max || AllKeys(q)
  }

  /** One more packet and one eviction keep the bound; no key packet goes. */
  lemma EvictKeepsBound<P>(q: seq<Data<P>>, d: Data<P>, max: nat)
    requires Bounded(q, max)
    ensures Bounded(Evict(q + [d], max), max)
    ensures forall i :: 0 <= i < |Evicted(q + [d], max)| ==> !Evicted(q + [d], max)[i].key
  {
    var r := q + [d];
    var k := OldestNonKey(r);
    if |r| > max {
      if AllKeys(q) {
        assert k < |r| ==> k == |q| && Without(r, k) == q;
      }
      if k == |r| {
        assert r[..k] == r;
      }
    }
  }

  // --------------------------------------------------------------- the machine

  /** decode_stop_ and the worker: it is true before the first packet and after
      ThreadStop has begun. */
  datatype Phase = NotStarted | Running | Stopping | Stopped

  datatype Worker = Top | Waiting | Holding | Working | Done

  /** None in `queue` or `batch`: the null pointer ThreadStop pushes.
      crashed: the worker has followed one. */
  datatype State<P, F> = State(
    max: nat, gate: bool, phase: Phase, flushing: bool,
    queue: seq<Option<Data<P>>>, worker: Worker, batch: seq<Option<Data<P>>>, results: seq<F>,
    crashed: bool,
    // history
    arrived: seq<Data<P>>, accepted: seq<Data<P>>, evicted: seq<Data<P>>,
    tried: seq<Attempt<P, F>>, discarded: seq<Data<P>>, delivered: seq<F>,
    batches: nat, reasons: seq<Reason>)

  /** Open: a queue size below 2 is not taken over. */
  function Start<P, F>(queueSize: int): State<P, F> {
    State(if queueSize >= 2 then queueSize else 2, false, NotStarted, false,
          [], Top, [], [], false, [], [], [], [], [], [], 0, [])
  }

  datatype Step<P, F> =
    | Arrive(key: bool, packet: P)      // DecodeAsync up to the end of the first lock
    | Flush                             // the rest of DecodeAsync
    | SetStop                           // ThreadStop: decode_stop_ = true
    | PushNull                          // ThreadStop: the null pointer
    | Look                              // the test of the worker's loop
    | Grab                              // the wait and the move, under the lock
    | CheckStop                         // the test after the lock
    | Decode(outcome: Outcome<F>)       // one packet of the batch
    | Leave                             // the test inside the batch, and its end

  function Packets<P>(q: seq<Option<Data<P>>>): seq<Data<P>> {
    if q == [] then []
    else Packets(q[..|q| - 1]) + (if q[|q| - 1].Some? then [q[|q| - 1].value] else [])
  }

  function Entries<P>(q: seq<Data<P>>): (r: seq<Option<Data<P>>>)
    ensures |r| == |q|
    ensures forall i :: 0 <= i < |r| ==> r[i] == Some(q[i])
  {
    seq(|q|, i requires 0 <= i < |q| => Some(q[i]))
  }

  predicate Stop(phase: Phase) {
    !phase.Running?
  }

  predicate Enabled<P, F>(s: State<P, F>, e: Step<P, F>) {
    match e
    case Arrive(_, _) => !s.flushing && (s.phase.NotStarted? || s.phase.Running?)
    case Flush => s.flushing
    case SetStop => !s.flushing && s.phase.Running?
    case PushNull => s.phase.Stopping?
    case Look => s.worker.Top? && !s.phase.NotStarted?
    case Grab => s.worker.Waiting? && s.queue != []
    case CheckStop => s.worker.Holding?
    case Decode(_) => s.worker.Working? && s.batch != []
    case Leave => s.worker.Working? && (s.batch == [] || Stop(s.phase))
  }

  /** The packet is a key packet, or one was before. */
  function Admit<P, F>(s: State<P, F>, d: Data<P>): State<P, F> {
    var r := s.(arrived := s.arrived + [d], phase := Running);
    if !s.gate && !d.key then r
    else
      var q := Packets(s.queue) + [d];
      r.(gate := true, flushing := true, accepted := s.accepted + [d],
         queue := Entries(Evict(q, s.max)), evicted := s.evicted + Evicted(q, s.max))
  }

  /** GetFrame has taken the head of the batch and answered. */
  function Tried<P, F>(s: State<P, F>, outcome: Outcome<F>): State<P, F>
    requires s.batch != [] && s.batch[0].Some?
  {
    s.(tried := s.tried + [Attempt(s.batch[0].value, outcome, s.batches)], batch := s.batch[1..],
       results := s.results + (if outcome.Frame? then [outcome.frame] else []))
  }

  function Repeat<T>(x: T, n: nat): (r: seq<T>)
    ensures |r| == n && forall i :: 0 <= i < n ==> r[i] == x
  {
    if n == 0 then [] else Repeat(x, n - 1) + [x]
  }

  /** The worker leaves its batch: what is in it is destroyed. */
  function GaveUp<P, F>(s: State<P, F>, worker: Worker): State<P, F> {
    s.(worker := worker, batch := [], discarded := s.discarded + Packets(s.batch),
       reasons := s.reasons + Repeat(Reason(s.batches, Stop(s.phase)), |Packets(s.batch)|))
  }

  function Next<P, F>(s: State<P, F>, e: Step<P, F>): State<P, F>
    requires Enabled(s, e)
  {
    match e
    case Arrive(key, packet) => Admit(s, Data(|s.arrived|, key, packet))
    case Flush => s.(flushing := false, delivered := s.delivered + s.results, results := [])
    case SetStop => s.(phase := Stopping)
    case PushNull => s.(phase := Stopped, queue := s.queue + [None])
    case Look => s.(worker := if Stop(s.phase) then Done else Waiting)
    case Grab => s.(worker := Holding, batch := s.queue, queue := [], batches := s.batches + 1)
    case CheckStop =>
      if Stop(s.phase) then GaveUp(s, Done)
      else s.(worker := Working)
    case Decode(outcome) =>
      if s.batch[0].None? then s.(crashed := true, worker := Done)
      else if outcome.Frame? then Tried(s, outcome)
      else GaveUp(Tried(s, outcome), Top)
    case Leave => GaveUp(s, Top)
  }

  function Take<P, F>(s: State<P, F>, e: Step<P, F>): State<P, F> {
    if Enabled(s, e) then Next(s, e) else s
  }

  function TakeAll<P, F>(s: State<P, F>, run: seq<Step<P, F>>): State<P, F>
    decreases |run|
  {
    if run == [] then s else TakeAll(Take(s, run[0]), run[1..])
  }

  // ------------------------------------------------------------------ histories

  function DataOf<P, F>(tried: seq<Attempt<P, F>>): (r: seq<Data<P>>) {
    if tried == [] then [] else DataOf(tried[..|tried| - 1]) + [tried[|tried| - 1].data]
  }

  /** The frames of the attempts that gave one. */
  function FramesOf<P, F>(tried: seq<Attempt<P, F>>): seq<F> {
    if tried == [] then []
    else
      var a := tried[|tried| - 1];
      FramesOf(tried[..|tried| - 1]) + (if a.outcome.Frame? then [a.outcome.frame] else [])
  }

  /** The arrivals from the first key packet on. */
  function FromFirstKey<P>(arrived: seq<Data<P>>): seq<Data<P>> {
    if arrived == [] || arrived[0].key then arrived else FromFirstKey(arrived[1..])
  }

  ghost predicate NoKey<P>(q: seq<Data<P>>) {
    forall i :: 0 <= i < |q| ==> !q[i].key
  }

  lemma {:induction false} FromFirstKeyAppend<P>(q: seq<Data<P>>, d: Data<P>)
    ensures FromFirstKey(q + [d]) ==
            if NoKey(q) then (if d.key then [d] else []) else FromFirstKey(q) + [d]
    ensures !NoKey(q) ==> FromFirstKey(q) != [] && FromFirstKey(q)[0].key
    decreases |q|
  {
    if q != [] && !q[0].key {
      assert (q + [d])[1..] == q[1..] + [d];
      FromFirstKeyAppend(q[1..], d);
      assert NoKey(q[1..]) ==> NoKey(q);
      if !NoKey(q[1..]) {
        var i :| 0 <= i < |q[1..]| && q[1..][i].key;
        assert q[i + 1].key;
      }
    }
    if q == [] { assert q + [d] == [d] && [d][1..] == []; }
  }

  /** Arrival numbers are right and increase along the line. */
  ghost predicate Ordered<P>(line: seq<Data<P>>, arrived: seq<Data<P>>) {
    && (forall i :: 0 <= i < |line| ==> line[i].id < |arrived| && arrived[line[i].id] == line[i])
    && (forall i, j :: 0 <= i < j < |line| ==> line[i].id < line[j].id)
  }

  // ------------------------------------------------------------------ invariant

  /** What has been tried, is in the worker's batch, and is queued, in this order. */
  function Line<P, F>(s: State<P, F>): seq<Data<P>> {
    DataOf(s.tried) + Packets(s.batch) + Packets(s.queue)
  }

  ghost predicate NullOk<P, F>(s: State<P, F>) {
    && !s.crashed
    && (None in s.queue ==> s.phase.Stopped?)
    && (None in s.batch ==> s.phase.Stopped? && s.worker.Holding?)
    && (s.worker.Top? || s.worker.Waiting? || s.worker.Done? ==> s.batch == [])
    && (s.worker.Waiting? && s.phase.Stopped? ==> s.queue != [])
  }

  ghost predicate GateOk<P>(gate: bool, arrived: seq<Data<P>>, accepted: seq<Data<P>>) {
    && accepted == FromFirstKey(arrived)
    && (gate <==> !NoKey(arrived))
    && (forall i :: 0 <= i < |arrived| ==> arrived[i].id == i)
  }

  /** The line keeps the order of arrival; with what was evicted and discarded
      it is what was accepted. */
  ghost predicate PlacesOk<P>(line: seq<Data<P>>, arrived: seq<Data<P>>, accepted: seq<Data<P>>,
                              evicted: seq<Data<P>>, discarded: seq<Data<P>>) {
    && Ordered(line, arrived)
    && multiset(accepted) == multiset(line) + multiset(evicted) + multiset(discarded)
  }

  ghost predicate QueueOk<P>(max: nat, queue: seq<Data<P>>, evicted: seq<Data<P>>) {
    max >= 2 && Bounded(queue, max) && NoKey(evicted)
  }

  ghost predicate Inv<P, F>(s: State<P, F>) {
    && NullOk(s)
    && GateOk(s.gate, s.arrived, s.accepted)
    && PlacesOk(Line(s), s.arrived, s.accepted, s.evicted, s.discarded)
    && QueueOk(s.max, Packets(s.queue), s.evicted)
    && s.delivered + s.results == FramesOf(s.tried)
  }

  lemma StartInv<P, F>(queueSize: int)
    ensures Inv(Start<P, F>(queueSize))
  {
    var s := Start<P, F>(queueSize);
    assert Packets<P>([]) == [] && DataOf<P, F>([]) == [] && FramesOf<P, F>([]) == [];
    assert Line(s) == [];
  }

  lemma {:induction false} PacketsOfEntries<P>(q: seq<Data<P>>)
    ensures Packets(Entries(q)) == q
    decreases |q|
  {
    if q == [] {
    } else {
      var n := |q| - 1;
      PacketsOfEntries(q[..n]);
      assert Entries(q)[..n] == Entries(q[..n]);
      assert q[..n] + [q[n]] == q;
    }
  }

  lemma {:induction false} PacketsAppend<P>(a: seq<Option<Data<P>>>, b: seq<Option<Data<P>>>)
    ensures Packets(a + b) == Packets(a) + Packets(b)
    decreases |b|
  {
    if b == [] {
      assert a + b == a;
    } else {
      var n := |b| - 1;
      PacketsAppend(a, b[..n]);
      assert (a + b)[..|a + b| - 1] == a + b[..n];
      Assoc(Packets(a), Packets(b[..n]), if b[n].Some? then [b[n].value] else []);
    }
  }

  /** Leaving a stretch out of an ordered line keeps it ordered. */
  lemma OrderedCut<P>(a: seq<Data<P>>, b: seq<Data<P>>, c: seq<Data<P>>, arrived: seq<Data<P>>)
    requires Ordered(a + b + c, arrived)
    ensures Ordered(a + c, arrived)
  {
    var l, r := a + b + c, a + c;
    forall i, j | 0 <= i < j < |r| ensures r[i].id < r[j].id {
      assert r[i] == l[if i < |a| then i else i + |b|] && r[j] == l[if j < |a| then j else j + |b|];
    }
    forall i | 0 <= i < |r| ensures r[i].id < |arrived| && arrived[r[i].id] == r[i] {
      assert r[i] == l[if i < |a| then i else i + |b|];
    }
  }

  lemma OrderedNewest<P>(line: seq<Data<P>>, arrived: seq<Data<P>>, d: Data<P>)
    requires Ordered(line, arrived) && d.id == |arrived|
    ensures Ordered(line + [d], arrived + [d])
  {
    OrderedLater(line, arrived, d);
    assert (arrived + [d])[|arrived|] == d;
    var r := line + [d];
    assert forall i :: 0 <= i < |line| ==> r[i] == line[i];
  }

  lemma OrderedLater<P>(line: seq<Data<P>>, arrived: seq<Data<P>>, d: Data<P>)
    requires Ordered(line, arrived)
    ensures Ordered(line, arrived + [d])
  {
    forall i | 0 <= i < |line| ensures (arrived + [d])[line[i].id] == line[i] {}
  }

  // ------------------------------------------------------------- step by step

  /** One arrival evicts one packet exactly when the queue has outgrown the bound
      and holds a packet that is not a key packet; the one that goes is the oldest
      such packet, and the others keep their places. */
  lemma EvictsOldestNonKey<P>(q: seq<Data<P>>, max: nat) returns (a: seq<Data<P>>, c: seq<Data<P>>)
    ensures |Evicted(q, max)| == if |q| > max && !AllKeys(q) then 1 else 0
    ensures q == a + Evicted(q, max) + c && Evict(q, max) == a + c
    ensures Evicted(q, max) != [] ==> AllKeys(a) && !Evicted(q, max)[0].key
  {
    var k := OldestNonKey(q);
    assert AllKeys(q) <==> k == |q| by {
      if k == |q| { assert q[..k] == q; }
    }
    if |q| > max && k < |q| {
      a, c := q[..k], q[k + 1..];
      assert q == a + [q[k]] + c;
      assert AllKeys(a);
    } else {
      a, c := q, [];
      assert q == q + [] + [] && q == q + [];
    }
  }

  lemma NoKeyAppend<P>(q: seq<Data<P>>, d: Data<P>)
    ensures NoKey(q + [d]) <==> NoKey(q) && !d.key
  {
    if d.key { assert (q + [d])[|q|].key; }
    if !NoKey(q) {
      var i :| 0 <= i < |q| && q[i].key;
      assert (q + [d])[i].key;
    }
  }

  lemma {:induction false} NothingBeforeKey<P>(q: seq<Data<P>>)
    requires NoKey(q)
    ensures FromFirstKey(q) == []
    decreases |q|
  {
    if q == [] {
    } else {
      NothingBeforeKey(q[1..]);
    }
  }

  lemma AdmitGate<P>(gate: bool, arrived: seq<Data<P>>, accepted: seq<Data<P>>, d: Data<P>)
    requires GateOk(gate, arrived, accepted) && d.id == |arrived|
    ensures GateOk(gate || d.key, arrived + [d], if gate || d.key then accepted + [d] else accepted)
  {
    FromFirstKeyAppend(arrived, d);
    NoKeyAppend(arrived, d);
    if NoKey(arrived) { NothingBeforeKey(arrived); }
    hide FromFirstKey, NoKey;
  }

  /** One line, cut around what goes: the places add up as before. */
  lemma CutPlaces<T>(a: seq<T>, b: seq<T>, c: seq<T>)
    ensures multiset(a + b + c) == multiset(a + c) + multiset(b)
  {}

  /** The new packet joins the queue, at the end of the line, and e is evicted. */
  lemma AdmitPlaces<P>(head: seq<Data<P>>, a: seq<Data<P>>, e: seq<Data<P>>, c: seq<Data<P>>, q: seq<Data<P>>,
                       arrived: seq<Data<P>>, accepted: seq<Data<P>>, evicted: seq<Data<P>>,
                       discarded: seq<Data<P>>, d: Data<P>)
    requires PlacesOk(head + q, arrived, accepted, evicted, discarded) && d.id == |arrived|
    requires q + [d] == a + e + c
    ensures PlacesOk(head + (a + c), arrived + [d], accepted + [d], evicted + e, discarded)
  {
    var line := head + q;
    OrderedNewest(line, arrived, d);
    assert line + [d] == (head + a) + e + c by {
      Assoc(head, q, [d]); Assoc(head, a + e, c); Assoc(head, a, e);
    }
    OrderedCut(head + a, e, c, arrived + [d]);
    Assoc(head, a, c);
    hide Ordered;
    CutPlaces(head + a, e, c);
    var l, v, w, n := multiset(line), multiset(evicted), multiset(discarded), multiset{d};
    assert multiset(line + [d]) == l + n;
    assert multiset(accepted + [d]) == l + v + w + n;
    assert multiset(evicted + e) == v + multiset(e);
    assert l + n == multiset(head + a + c) + multiset(e);
    assert l + v + w + n == (l + n) + v + w;
  }

  lemma AdmitQueue<P>(max: nat, q: seq<Data<P>>, evicted: seq<Data<P>>, d: Data<P>)
    requires QueueOk(max, q, evicted)
    ensures QueueOk(max, Evict(q + [d], max), evicted + Evicted(q + [d], max))
  {
    EvictKeepsBound(q, d, max);
    hide Evict, Evicted, Bounded;
  }

  /** The eviction, seen by the line alone. */
  lemma EvictSplits<P>(q: seq<Data<P>>, max: nat) returns (a: seq<Data<P>>, c: seq<Data<P>>)
    ensures q == a + Evicted(q, max) + c && Evict(q, max) == a + c
  {
    a, c := EvictsOldestNonKey(q, max);
  }

  /** A packet before the first key packet is passed over. */
  lemma PassOverInv<P, F>(s: State<P, F>, d: Data<P>)
    requires Inv(s) && d.id == |s.arrived| && (s.phase.NotStarted? || s.phase.Running?)
    requires !s.gate && !d.key
    ensures Inv(Admit(s, d))
  {
    hide Packets, FramesOf, DataOf, FromFirstKey, QueueOk, GateOk, Ordered, Line;
    AdmitGate(s.gate, s.arrived, s.accepted, d);
    OrderedLater(Line(s), s.arrived, d);
    SameLine(s, Admit(s, d));
  }

  lemma SameLine<P, F>(s: State<P, F>, r: State<P, F>)
    requires r.tried == s.tried && r.batch == s.batch && r.queue == s.queue
    ensures Line(r) == Line(s)
  {}

  lemma AdmitNull<P, F>(s: State<P, F>, d: Data<P>)
    requires NullOk(s) && (s.phase.NotStarted? || s.phase.Running?)
    ensures NullOk(Admit(s, d))
  {
    hide Packets, Evict, Evicted;
  }

  /** The line after an arrival that is queued. */
  lemma AdmitLine<P, F>(s: State<P, F>, d: Data<P>)
    requires (s.gate || d.key) && d.id == |s.arrived|
    requires PlacesOk(Line(s), s.arrived, s.accepted, s.evicted, s.discarded)
    ensures var r := Admit(s, d); PlacesOk(Line(r), r.arrived, r.accepted, r.evicted, r.discarded)
    ensures Packets(Admit(s, d).queue) == Evict(Packets(s.queue) + [d], s.max)
  {
    hide PlacesOk, Packets, DataOf, Evict, Evicted, Entries;
    var q, head := Packets(s.queue), DataOf(s.tried) + Packets(s.batch);
    var a, c := EvictSplits(q + [d], s.max);
    PacketsOfEntries(a + c);
    AdmitPlaces(head, a, Evicted(q + [d], s.max), c, q, s.arrived, s.accepted, s.evicted, s.discarded, d);
  }

  lemma AdmitInv<P, F>(s: State<P, F>, d: Data<P>)
    requires Inv(s) && d.id == |s.arrived| && (s.phase.NotStarted? || s.phase.Running?)
    ensures Inv(Admit(s, d))
  {
    if !s.gate && !d.key {
      PassOverInv(s, d);
      hide Inv, Admit;
    } else {
      hide NullOk, GateOk, PlacesOk, QueueOk, Line, Packets, Evict, Evicted, Entries, FramesOf;
      AdmitNull(s, d);
      AdmitGate(s.gate, s.arrived, s.accepted, d);
      AdmitQueue(s.max, Packets(s.queue), s.evicted, d);
      AdmitLine(s, d);
    }
  }

  lemma PushNullInv<P, F>(s: State<P, F>)
    requires Inv(s) && Enabled(s, PushNull)
    ensures Inv(Next(s, PushNull))
  {
    hide Packets, DataOf, FramesOf, GateOk, PlacesOk, QueueOk;
    NullIsNoPacket(s.queue);
    assert Line(Next(s, PushNull)) == Line(s);
  }

  lemma NullIsNoPacket<P>(q: seq<Option<Data<P>>>)
    ensures Packets(q + [None]) == Packets(q)
  {
    assert (q + [None])[..|q|] == q;
  }

  lemma GrabInv<P, F>(s: State<P, F>)
    requires Inv(s) && Enabled(s, Grab)
    ensures Inv(Next(s, Grab))
  {
    hide GateOk, PlacesOk, QueueOk, Packets, DataOf, FramesOf;
    var r := Next(s, Grab);
    EmptyQueueOk(s.max, Packets(s.queue), s.evicted);
    NoPackets<P>();
    assert Line(r) == Line(s) by {
      var t, q := DataOf(s.tried), Packets(s.queue);
      assert t + [] == t && (t + q) + [] == t + q;
    }
    hide Line;
  }

  lemma NoPackets<P>()
    ensures Packets<P>([]) == []
  {}

  lemma EmptyQueueOk<P>(max: nat, q: seq<Data<P>>, evicted: seq<Data<P>>)
    requires QueueOk(max, q, evicted)
    ensures QueueOk(max, [], evicted)
  {}

  lemma GiveUpPlaces<P>(t: seq<Data<P>>, b: seq<Data<P>>, q: seq<Data<P>>, arrived: seq<Data<P>>,
                        accepted: seq<Data<P>>, evicted: seq<Data<P>>, discarded: seq<Data<P>>)
    requires PlacesOk(t + b + q, arrived, accepted, evicted, discarded)
    ensures PlacesOk(t + q, arrived, accepted, evicted, discarded + b)
  {
    OrderedCut(t, b, q, arrived);
    hide Ordered;
    CutPlaces(t, b, q);
    assert multiset(discarded + b) == multiset(discarded) + multiset(b);
  }

  /** What is left of the batch is given up. */
  lemma GiveUpInv<P, F>(s: State<P, F>, worker: Worker)
    requires Inv(s) && worker in {Top, Done}
    ensures Inv(GaveUp(s, worker))
  {
    hide Packets, DataOf, FramesOf, GateOk, QueueOk, PlacesOk;
    var r := GaveUp(s, worker);
    NoPackets<P>();
    var t, b, q := DataOf(s.tried), Packets(s.batch), Packets(s.queue);
    GiveUpPlaces(t, b, q, s.arrived, s.accepted, s.evicted, s.discarded);
    assert Line(r) == t + q;
    hide Line;
  }

  lemma TriedHistory<P, F>(tried: seq<Attempt<P, F>>, a: Attempt<P, F>)
    ensures DataOf(tried + [a]) == DataOf(tried) + [a.data]
    ensures FramesOf(tried + [a]) == FramesOf(tried) + (if a.outcome.Frame? then [a.outcome.frame] else [])
  {
    assert (tried + [a])[..|tried|] == tried;
  }

  lemma PacketsFirst<P>(b: seq<Option<Data<P>>>)
    requires b != [] && b[0].Some?
    ensures Packets(b) == [b[0].value] + Packets(b[1..])
  {
    assert b == [b[0]] + b[1..];
    PacketsAppend([b[0]], b[1..]);
    assert Packets([b[0]]) == [b[0].value] by { assert Packets<P>([]) == []; assert [b[0]][..0] == []; }
  }

  /** The head of the batch goes to the codec; nothing moves in the line. */
  lemma TryInv<P, F>(s: State<P, F>, outcome: Outcome<F>)
    requires Inv(s) && s.worker.Working? && s.batch != [] && s.batch[0].Some?
    ensures Inv(Tried(s, outcome))
  {
    var r, d := Tried(s, outcome), s.batch[0].value;
    PacketsFirst(s.batch);
    TriedHistory(s.tried, Attempt(d, outcome, s.batches));
    hide Packets, DataOf, FramesOf, GateOk, PlacesOk, QueueOk;
    assert Line(r) == Line(s) by {
      var t, b, q := DataOf(s.tried), Packets(s.batch[1..]), Packets(s.queue);
      Assoc(t, [d], b);
    }
    Assoc(s.delivered, s.results, if outcome.Frame? then [outcome.frame] else []);
    hide Line;
  }

  lemma NoNullInWork<P, F>(s: State<P, F>)
    requires Inv(s) && s.worker.Working? && s.batch != []
    ensures s.batch[0].Some?
  {
    hide GateOk, PlacesOk, QueueOk, Packets, DataOf, FramesOf, Line;
    assert s.batch[0] in s.batch;
  }

  lemma DecodeInv<P, F>(s: State<P, F>, outcome: Outcome<F>)
    requires Inv(s) && Enabled(s, Decode(outcome))
    ensures Inv(Next(s, Decode(outcome)))
  {
    hide Inv, Packets;
    NoNullInWork(s);
    TryInv(s, outcome);
    if !outcome.Frame? { GiveUpInv(Tried(s, outcome), Top); }
  }

  lemma KeepInv<P, F>(s: State<P, F>, r: State<P, F>)
    requires Inv(s) && NullOk(r)
    requires r == s.(worker := r.worker, phase := r.phase, flushing := r.flushing,
                     delivered := r.delivered, results := r.results)
    requires r.delivered + r.results == s.delivered + s.results
    ensures Inv(r)
  {
    hide Packets, DataOf, FramesOf, GateOk, PlacesOk, QueueOk, NullOk;
    assert Line(r) == Line(s);
  }

  /** Steps that move no packet. */
  lemma QuietInv<P, F>(s: State<P, F>, e: Step<P, F>)
    requires Inv(s) && Enabled(s, e)
    requires e.Flush? || e.SetStop? || e.Look? || (e.CheckStop? && !Stop(s.phase))
    ensures Inv(Next(s, e))
  {
    hide Packets, DataOf, FramesOf, GateOk, PlacesOk, QueueOk, Line;
    var r := Next(s, e);
    assert r.delivered + r.results == s.delivered + s.results;
    KeepInv(s, r);
    hide Inv;
  }

  lemma StepInv<P, F>(s: State<P, F>, e: Step<P, F>)
    requires Inv(s)
    ensures Inv(Take(s, e))
  {
    if Enabled(s, e) {
      match e
      case Arrive(key, packet) =>
        AdmitInv(s, Data(|s.arrived|, key, packet));
        hide Inv, Admit;
      case PushNull => PushNullInv(s);
      case Grab => GrabInv(s);
      case CheckStop => CheckStopInv(s);
      case Decode(outcome) => DecodeInv(s, outcome);
      case Leave => GiveUpInv(s, Top);
      case _ => QuietInv(s, e);
      hide Inv, Admit, Packets;
    }
  }

  lemma CheckStopInv<P, F>(s: State<P, F>)
    requires Inv(s) && Enabled(s, CheckStop)
    ensures Inv(Next(s, CheckStop))
  {
    hide Inv, Packets;
    if Stop(s.phase) {
      GiveUpInv(s, Done);
    } else {
      QuietInv(s, CheckStop);
    }
  }

  lemma {:induction false} RunInv<P, F>(s: State<P, F>, run: seq<Step<P, F>>)
    requires Inv(s)
    ensures Inv(TakeAll(s, run))
    decreases |run|
  {
    if run == [] {
    } else {
      StepInv(s, run[0]);
      hide Inv, Take;
      RunInv(Take(s, run[0]), run[1..]);
    }
  }

  // -------------------------------------------------------------- main results

  /** What a decoder opened with this queue size has become after these steps. */
  function After<P, F>(queueSize: int, run: seq<Step<P, F>>): State<P, F> {
    TakeAll(Start(queueSize), run)
  }

  lemma AfterInv<P, F>(queueSize: int, run: seq<Step<P, F>>)
    ensures Inv(After(queueSize, run))
  {
    StartInv<P, F>(queueSize);
    hide Inv, Start;
    RunInv(Start(queueSize), run);
  }

  /** The callbacks so far, then the pending results, are the frames of the
      attempts, one after the other; and the packets attempted are some of the
      arrived ones, in the order they arrived. */
  lemma FramesInArrivalOrder<P, F>(queueSize: int, run: seq<Step<P, F>>)
    ensures var s := After(queueSize, run);
            s.delivered + s.results == FramesOf(s.tried) && Ordered(DataOf(s.tried), s.arrived)
  {
    AfterInv(queueSize, run);
    var s := After(queueSize, run);
    hide After, Packets, DataOf, FramesOf, GateOk;
    var t, r := DataOf(s.tried), Packets(s.batch) + Packets(s.queue);
    Assoc(t, Packets(s.batch), Packets(s.queue));
    assert t + r + [] == Line(s);
    OrderedCut(t, r, [], s.arrived);
    assert t + [] == t;
  }

  /** Everything from the first key packet on is accepted, and nothing before. */
  lemma AcceptedFromFirstKey<P, F>(queueSize: int, run: seq<Step<P, F>>) returns (k: nat)
    ensures var s := After(queueSize, run);
            && k <= |s.arrived| && s.accepted == s.arrived[k..]
            && NoKey(s.arrived[..k]) && (s.accepted != [] ==> s.accepted[0].key)
  {
    AfterInv(queueSize, run);
    var s := After(queueSize, run);
    hide After, Packets, DataOf, FramesOf, PlacesOk;
    k := FirstKeyAt(s.arrived);
  }

  lemma {:induction false} FirstKeyAt<P>(q: seq<Data<P>>) returns (k: nat)
    ensures k <= |q| && FromFirstKey(q) == q[k..] && NoKey(q[..k]) && (k < |q| ==> q[k].key)
    decreases |q|
  {
    if q == [] || q[0].key {
      k := 0;
    } else {
      var n := FirstKeyAt(q[1..]);
      k := n + 1;
      assert q[k..] == q[1..][n..] && q[..k] == [q[0]] + q[1..][..n];
    }
  }

  ghost predicate NumberedFrom<P>(q: seq<Data<P>>, n: nat) {
    forall i :: 0 <= i < |q| ==> q[i].id == n + i
  }

  lemma {:induction false} OnceEach<P>(q: seq<Data<P>>, n: nat, d: Data<P>)
    requires NumberedFrom(q, n)
    ensures multiset(q)[d] == if d in q then 1 else 0
    decreases |q|
  {
    if q == [] {
    } else {
      var m := |q| - 1;
      OnceEach(q[..m], n, d);
      assert q == q[..m] + [q[m]];
      forall i | 0 <= i < m ensures q[i] != q[m] {
        assert q[i].id == n + i;
      }
    }
  }

  /** In how many of the five places a packet is, occurrences counted. */
  ghost function Places<P, F>(s: State<P, F>, d: Data<P>): nat {
    multiset(DataOf(s.tried))[d] + multiset(Packets(s.batch))[d] + multiset(Packets(s.queue))[d]
    + multiset(s.evicted)[d] + multiset(s.discarded)[d]
  }

  /** Every accepted packet has been attempted, or is in the batch, or queued, or
      was evicted, or discarded: one of these, once.  No other packet is anywhere. */
  lemma EachInOnePlace<P, F>(queueSize: int, run: seq<Step<P, F>>, d: Data<P>)
    ensures var s := After(queueSize, run); Places(s, d) == if d in s.accepted then 1 else 0
  {
    AfterInv(queueSize, run);
    var s := After(queueSize, run);
    var k := AcceptedFromFirstKey(queueSize, run);
    hide After, Packets, DataOf, FramesOf, FromFirstKey, Ordered, NoKey, QueueOk, NullOk;
    assert NumberedFrom(s.accepted, k) by {
      assert forall i :: 0 <= i < |s.accepted| ==> s.accepted[i] == s.arrived[k + i];
    }
    OnceEach(s.accepted, k, d);
    hide NumberedFrom, GateOk;
    SumOfThree(DataOf(s.tried), Packets(s.batch), Packets(s.queue), d);
    assert multiset(s.accepted)[d] == multiset(Line(s))[d] + multiset(s.evicted)[d] + multiset(s.discarded)[d];
  }

  lemma SumOfThree<T>(a: seq<T>, b: seq<T>, c: seq<T>, d: T)
    ensures multiset(a + b + c)[d] == multiset(a)[d] + multiset(b)[d] + multiset(c)[d]
  {}

  /** Strictly increasing numbers k, k + 1, ... without a gap: as many as there are. */
  lemma {:induction false} NoGap<P>(line: seq<Data<P>>, arrived: seq<Data<P>>, k: nat, i: nat)
    requires Ordered(line, arrived) && k <= |arrived| && |line| == |arrived| - k && i < |line|
    requires forall j :: 0 <= j < |line| ==> line[j].id >= k
    ensures line[i].id >= k + i
    decreases i
  {
    if i == 0 {
    } else {
      NoGap(line, arrived, k, i - 1);
    }
  }

  lemma {:induction false} NoSurplus<P>(line: seq<Data<P>>, arrived: seq<Data<P>>, k: nat, i: nat)
    requires Ordered(line, arrived) && k <= |arrived| && |line| == |arrived| - k && i < |line|
    ensures line[i].id <= k + i
    decreases |line| - i
  {
    if i < |line| - 1 { NoSurplus(line, arrived, k, i + 1); }
  }

  /** An ordered line of the same packets as a last stretch of the arrivals is that
      stretch. */
  lemma OrderedAll<P>(line: seq<Data<P>>, arrived: seq<Data<P>>, k: nat)
    requires Ordered(line, arrived) && k <= |arrived| && NumberedFrom(arrived[k..], k)
    requires multiset(line) == multiset(arrived[k..])
    ensures line == arrived[k..]
  {
    var last := arrived[k..];
    assert |line| == |multiset(line)| == |multiset(last)| == |last|;
    forall j | 0 <= j < |line| ensures line[j].id >= k {
      assert line[j] in multiset(line);
      assert line[j] in last;
    }
    forall i | 0 <= i < |line| ensures line[i] == last[i] {
      NoGap(line, arrived, k, i);
      NoSurplus(line, arrived, k, i);
    }
  }

  /** What was attempted, is in the batch and is queued is, in this order, all that
      was accepted, exactly when nothing was evicted or discarded. */
  lemma NothingLostIff<P, F>(queueSize: int, run: seq<Step<P, F>>)
    ensures var s := After(queueSize, run);
            Line(s) == s.accepted <==> s.evicted == [] && s.discarded == []
  {
    AfterInv(queueSize, run);
    var s := After(queueSize, run);
    var k := AcceptedFromFirstKey(queueSize, run);
    hide After, Line, FromFirstKey, NullOk, QueueOk, FramesOf, NoKey;
    var e, d := multiset(s.evicted), multiset(s.discarded);
    if Line(s) == s.accepted {
      assert |multiset(s.accepted)| == |multiset(Line(s))| + |e| + |d|;
      assert |e| == |s.evicted| && |d| == |s.discarded|;
    }
    if s.evicted == [] && s.discarded == [] {
      assert multiset(s.accepted) == multiset(Line(s)) + e + d;
      assert NumberedFrom(s.accepted, k);
      OrderedAll(Line(s), s.arrived, k);
    }
  }

  /** The step throws a packet away: an arrival finds the queue full and a packet in it,
      or is one, that is not a key packet; or the worker leaves a batch, for an answer
      without a frame or a stop, with packets still in it. */
  predicate Lossy<P, F>(s: State<P, F>, e: Step<P, F>)
    requires Enabled(s, e)
  {
    match e
    case Arrive(key, packet) =>
      var q := Packets(s.queue) + [Data(|s.arrived|, key, packet)];
      (s.gate || key) && |q| > s.max && !AllKeys(q)
    case CheckStop => Stop(s.phase) && Packets(s.batch) != []
    case Decode(outcome) => s.batch[0].Some? && !outcome.Frame? && Packets(s.batch[1..]) != []
    case Leave => Packets(s.batch) != []
    case _ => false
  }

  predicate NeverLossy<P, F>(s: State<P, F>, run: seq<Step<P, F>>)
    decreases |run|
  {
    run == [] || (!(Enabled(s, run[0]) && Lossy(s, run[0])) && NeverLossy(Take(s, run[0]), run[1..]))
  }

  function Thrown<P, F>(s: State<P, F>): nat {
    |s.evicted| + |s.discarded|
  }

  lemma StepThrows<P, F>(s: State<P, F>, e: Step<P, F>)
    ensures Thrown(Take(s, e)) >= Thrown(s)
    ensures Thrown(Take(s, e)) == Thrown(s) <==> !(Enabled(s, e) && Lossy(s, e))
  {
    hide Packets, Entries, Evict, Evicted, AllKeys, Repeat;
    if Enabled(s, e) && e.Arrive? {
      var d := Data(|s.arrived|, e.key, e.packet);
      var a, c := EvictsOldestNonKey(Packets(s.queue) + [d], s.max);
    }
  }

  lemma {:induction false} RunThrows<P, F>(s: State<P, F>, run: seq<Step<P, F>>)
    ensures Thrown(TakeAll(s, run)) >= Thrown(s)
    ensures Thrown(TakeAll(s, run)) == Thrown(s) <==> NeverLossy(s, run)
    decreases |run|
  {
    if run == [] {
    } else {
      hide Take, Lossy, Enabled, Thrown;
      StepThrows(s, run[0]);
      RunThrows(Take(s, run[0]), run[1..]);
    }
  }

  /** The same condition on the run: no step of it throws a packet away. */
  lemma NothingLostOnRun<P, F>(queueSize: int, run: seq<Step<P, F>>)
    ensures var s := After(queueSize, run);
            Line(s) == s.accepted <==> NeverLossy(Start(queueSize), run)
  {
    NothingLostIff(queueSize, run);
    hide TakeAll, NeverLossy, Line;
    RunThrows(Start(queueSize), run);
  }

  // ------------------------------------------------------- why packets are given up

  /** In the same batch an earlier packet was attempted and gave no frame. */
  ghost predicate FailedBefore<P, F>(a: Attempt<P, F>, d: Data<P>, batch: nat) {
    a.batch == batch && !a.outcome.Frame? && a.data.id < d.id
  }

  ghost predicate Because<P, F>(tried: seq<Attempt<P, F>>, d: Data<P>, r: Reason) {
    r.stopping || exists j :: 0 <= j < |tried| && FailedBefore(tried[j], d, r.batch)
  }

  ghost predicate AllBecause<P, F>(tried: seq<Attempt<P, F>>, ds: seq<Data<P>>, rs: seq<Reason>) {
    |rs| == |ds| && forall i :: 0 <= i < |ds| ==> Because(tried, ds[i], rs[i])
  }

  ghost predicate StopSeen(phase: Phase, rs: seq<Reason>) {
    forall i :: 0 <= i < |rs| && rs[i].stopping ==> phase.Stopping? || phase.Stopped?
  }

  ghost predicate WhyInv<P, F>(s: State<P, F>) {
    && AllBecause(s.tried, s.discarded, s.reasons)
    && StopSeen(s.phase, s.reasons)
    && (s.phase.NotStarted? ==> s.worker.Top?)
  }

  lemma BecauseLater<P, F>(tried: seq<Attempt<P, F>>, a: Attempt<P, F>, ds: seq<Data<P>>, rs: seq<Reason>)
    requires AllBecause(tried, ds, rs)
    ensures AllBecause(tried + [a], ds, rs)
  {
    forall i | 0 <= i < |ds| ensures Because(tried + [a], ds[i], rs[i]) {
      if !rs[i].stopping {
        var j :| 0 <= j < |tried| && FailedBefore(tried[j], ds[i], rs[i].batch);
        assert (tried + [a])[j] == tried[j];
      }
    }
  }

  lemma BecauseMore<P, F>(tried: seq<Attempt<P, F>>, ds: seq<Data<P>>, rs: seq<Reason>, more: seq<Data<P>>, r: Reason)
    requires AllBecause(tried, ds, rs) && forall d :: d in more ==> Because(tried, d, r)
    ensures AllBecause(tried, ds + more, rs + Repeat(r, |more|))
  {
    var all, why := ds + more, rs + Repeat(r, |more|);
    forall i | 0 <= i < |all| ensures Because(tried, all[i], why[i]) {
      if i >= |ds| { assert all[i] == more[i - |ds|] && why[i] == r; }
    }
  }

  lemma StopSeenMore(phase: Phase, rs: seq<Reason>, r: Reason, n: nat)
    requires StopSeen(phase, rs) && (r.stopping ==> phase.Stopping? || phase.Stopped?)
    ensures StopSeen(phase, rs + Repeat(r, n))
  {}

  /** Giving up the batch, for a stop or after an attempt. */
  lemma GiveUpWhy<P, F>(s: State<P, F>, worker: Worker)
    requires WhyInv(s) && !s.phase.NotStarted?
    requires forall d :: d in Packets(s.batch) ==> Because(s.tried, d, Reason(s.batches, Stop(s.phase)))
    ensures WhyInv(GaveUp(s, worker))
  {
    hide AllBecause, StopSeen, Because, Packets;
    var r := Reason(s.batches, Stop(s.phase));
    BecauseMore(s.tried, s.discarded, s.reasons, Packets(s.batch), r);
    StopSeenMore(s.phase, s.reasons, r, |Packets(s.batch)|);
  }

  /** The rest of a batch arrived after its head. */
  lemma RestIsLater<P>(t: seq<Data<P>>, first: Data<P>, b: seq<Data<P>>, q: seq<Data<P>>, arrived: seq<Data<P>>, d: Data<P>)
    requires Ordered(t + ([first] + b) + q, arrived) && d in b
    ensures first.id < d.id
  {
    var line := t + ([first] + b) + q;
    var i :| 0 <= i < |b| && b[i] == d;
    assert line[|t|] == first && line[|t| + 1 + i] == d;
  }

  lemma BatchIsOrdered<P, F>(s: State<P, F>)
    requires Inv(s) && s.batch != [] && s.batch[0].Some?
    ensures Ordered(DataOf(s.tried) + ([s.batch[0].value] + Packets(s.batch[1..])) + Packets(s.queue), s.arrived)
  {
    hide GateOk, NullOk, QueueOk, Packets, DataOf, FramesOf, Ordered;
    PacketsFirst(s.batch);
  }

  lemma RestBecause<P, F>(s: State<P, F>, outcome: Outcome<F>, d: Data<P>)
    requires Inv(s) && s.batch != [] && s.batch[0].Some? && !outcome.Frame?
    requires d in Packets(Tried(s, outcome).batch)
    ensures var t := Tried(s, outcome); Because(t.tried, d, Reason(t.batches, Stop(t.phase)))
  {
    hide Because, Inv, Packets, DataOf, Ordered;
    BatchIsOrdered(s);
    RestIsLater(DataOf(s.tried), s.batch[0].value, Packets(s.batch[1..]), Packets(s.queue), s.arrived, d);
    LastFailed(s.tried, Attempt(s.batch[0].value, outcome, s.batches), d, Stop(s.phase));
  }

  lemma TriedKeepsWhy<P, F>(s: State<P, F>, outcome: Outcome<F>)
    requires WhyInv(s) && s.worker.Working? && s.batch != [] && s.batch[0].Some?
    ensures WhyInv(Tried(s, outcome))
  {
    hide AllBecause, StopSeen;
    BecauseLater(s.tried, Attempt(s.batch[0].value, outcome, s.batches), s.discarded, s.reasons);
  }

  lemma DecodeIs<P, F>(s: State<P, F>, outcome: Outcome<F>)
    requires s.worker.Working? && s.batch != [] && s.batch[0].Some?
    ensures Take(s, Decode(outcome)) == if outcome.Frame? then Tried(s, outcome) else GaveUp(Tried(s, outcome), Top)
  {
    hide Tried, GaveUp;
  }

  lemma TriedWhy<P, F>(s: State<P, F>, outcome: Outcome<F>)
    requires Inv(s) && WhyInv(s) && s.worker.Working? && s.batch != [] && s.batch[0].Some?
    ensures WhyInv(Take(s, Decode(outcome)))
  {
    hide WhyInv, Inv, Packets, Because, Tried, GaveUp, Take;
    TriedKeepsWhy(s, outcome);
    DecodeIs(s, outcome);
    if !outcome.Frame? {
      var t := Tried(s, outcome);
      forall d | d in Packets(t.batch) ensures Because(t.tried, d, Reason(t.batches, Stop(t.phase))) {
        RestBecause(s, outcome, d);
      }
      NotNotStarted(s, outcome);
      GiveUpWhy(t, Top);
    }
  }

  lemma NotNotStarted<P, F>(s: State<P, F>, outcome: Outcome<F>)
    requires WhyInv(s) && s.worker.Working? && s.batch != [] && s.batch[0].Some?
    ensures !Tried(s, outcome).phase.NotStarted?
  {
    hide AllBecause, StopSeen;
  }

  lemma LastFailed<P, F>(tried: seq<Attempt<P, F>>, a: Attempt<P, F>, d: Data<P>, stopping: bool)
    requires FailedBefore(a, d, a.batch)
    ensures Because(tried + [a], d, Reason(a.batch, stopping))
  {
    assert (tried + [a])[|tried|] == a;
  }

  lemma StepWhy<P, F>(s: State<P, F>, e: Step<P, F>)
    requires Inv(s) && WhyInv(s)
    ensures WhyInv(Take(s, e))
  {
    hide AllBecause, Inv, Packets, Entries, Evict, Evicted;
    if Enabled(s, e) {
      if e.Decode? {
        NoNullInWork(s);
        TriedWhy(s, e.outcome);
      } else if e.Leave? || (e.CheckStop? && Stop(s.phase)) {
        NoPackets<P>();
        GiveUpWhy(s, if e.Leave? then Top else Done);
      }
    }
  }

  lemma {:induction false} RunWhy<P, F>(s: State<P, F>, run: seq<Step<P, F>>)
    requires Inv(s) && WhyInv(s)
    ensures WhyInv(TakeAll(s, run))
    decreases |run|
  {
    if run == [] {
    } else {
      StepInv(s, run[0]);
      StepWhy(s, run[0]);
      hide Inv, WhyInv, Take;
      RunWhy(Take(s, run[0]), run[1..]);
    }
  }

  /** A packet is given up only with the rest of a batch: after an attempt in the
      same batch, on an earlier packet, that gave no frame; or because ThreadStop
      had begun. */
  lemma DiscardedBecause<P, F>(queueSize: int, run: seq<Step<P, F>>, i: nat)
    requires i < |After(queueSize, run).discarded|
    ensures var s := After(queueSize, run);
            && |s.reasons| == |s.discarded|
            && (s.reasons[i].stopping ==> s.phase.Stopping? || s.phase.Stopped?)
            && (!s.reasons[i].stopping ==>
                  exists j :: 0 <= j < |s.tried| && FailedBefore(s.tried[j], s.discarded[i], s.reasons[i].batch))
  {
    StartInv<P, F>(queueSize);
    hide Inv;
    RunWhy(Start(queueSize), run);
    hide TakeAll, Start;
    var s := After(queueSize, run);
    assert Because(s.tried, s.discarded[i], s.reasons[i]);
  }

  /** At any time the queue is no longer than the size asked for (at least 2), or
      holds key packets alone; and no key packet was ever evicted. */
  lemma QueueBound<P, F>(queueSize: int, run: seq<Step<P, F>>)
    ensures var s := After(queueSize, run);
            && s.max == (if queueSize >= 2 then queueSize else 2)
            && (|Packets(s.queue)| <= s.max || AllKeys(Packets(s.queue)))
            && NoKey(s.evicted)
  {
    AfterInv(queueSize, run);
    MaxStays(Start<P, F>(queueSize), run);
    hide TakeAll, Packets, DataOf, FramesOf, GateOk, PlacesOk;
  }

  lemma {:induction false} MaxStays<P, F>(s: State<P, F>, run: seq<Step<P, F>>)
    ensures TakeAll(s, run).max == s.max
    decreases |run|
  {
    if run == [] {
    } else {
      assert Take(s, run[0]).max == s.max by { hide Packets, Entries, Evict, Evicted; }
      hide Take;
      MaxStays(Take(s, run[0]), run[1..]);
    }
  }

  predicate IsWorkerStep<P, F>(e: Step<P, F>) {
    e.Look? || e.Grab? || e.CheckStop? || e.Decode? || e.Leave?
  }

  /** How many steps the worker may still take once it has been told to stop. */
  function Left<P, F>(s: State<P, F>): nat {
    match s.worker
    case Done => 0
    case Top => 1
    case Holding => 1
    case Waiting => 2
    case Working => 2 + |s.batch|
  }

  lemma WorkerAdvances<P, F>(s: State<P, F>, e: Step<P, F>)
    requires Inv(s) && s.phase.Stopped? && IsWorkerStep(e) && Enabled(s, e)
    ensures Left(Next(s, e)) < Left(s)
  {
    hide GateOk, PlacesOk, QueueOk, Packets, DataOf, FramesOf, Line, Entries, Evict, Evicted;
    if e.Decode? { NoNullInWork(s); }
    hide Inv;
  }

  lemma WorkerNotStuck<P, F>(s: State<P, F>)
    requires Inv(s) && s.phase.Stopped? && !s.worker.Done?
    ensures Enabled(s, Look) || Enabled(s, Grab) || Enabled(s, CheckStop) || Enabled(s, Leave)
  {
    hide GateOk, PlacesOk, QueueOk, Packets, DataOf, FramesOf, Line;
  }

  /** The worker never follows the null pointer, and ThreadStop's join returns:
      once the pointer is pushed, the worker that is not done has a step to take,
      and each step it takes leaves it fewer. */
  lemma StopsCleanly<P, F>(queueSize: int, run: seq<Step<P, F>>, e: Step<P, F>)
    ensures !After(queueSize, run).crashed
    ensures var s := After(queueSize, run);
            s.phase.Stopped? && !s.worker.Done? ==>
              Enabled(s, Look) || Enabled(s, Grab) || Enabled(s, CheckStop) || Enabled(s, Leave)
    ensures var s := After(queueSize, run);
            s.phase.Stopped? && IsWorkerStep(e) && Enabled(s, e) ==> Left(Next(s, e)) < Left(s)
  {
    AfterInv(queueSize, run);
    var s := After(queueSize, run);
    hide After, Packets, DataOf, FramesOf, GateOk, PlacesOk, QueueOk, Line, Next, Enabled, Left, IsWorkerStep;
    if s.phase.Stopped? && !s.worker.Done? { WorkerNotStuck(s); }
    if s.phase.Stopped? && IsWorkerStep(e) && Enabled(s, e) { WorkerAdvances(s, e); }
  }

  // ------------------------------------------------------------------ the class

  // ------------------------------------------------------------- what the steps do

  /** Right after the flush of any run the callback has been given the frame of every
      attempt that made one, and nothing is pending. */
  lemma FlushDelivers<P, F>(queueSize: int, run: seq<Step<P, F>>)
    requires Enabled(After<P, F>(queueSize, run), Flush)
    ensures var r := Take(After<P, F>(queueSize, run), Flush);
      r.delivered == FramesOf(r.tried) && r.results == [] && !r.flushing
  {
    AfterInv(queueSize, run);
    var s := After<P, F>(queueSize, run);
    assert s.delivered + s.results == FramesOf(s.tried);
    hide Inv, After, FramesOf;
  }

  /** Any arrival leaves the worker started; one that passes the gate is accepted,
      queued at the end while there is room, and followed by a flush. */
  lemma ArriveMoves<P, F>(s: State<P, F>, key: bool, packet: P)
    requires Inv(s) && Enabled(s, Arrive(key, packet))
    ensures var r, d := Take(s, Arrive(key, packet)), Data(|s.arrived|, key, packet);
      && r.phase.Running? && r.arrived == s.arrived + [d] && r.gate == (s.gate || key) == r.flushing
      && r.accepted == s.accepted + (if r.gate then [d] else [])
      && (!r.gate ==> r.queue == s.queue)
      && (r.gate && |s.queue| < s.max ==> r.queue == s.queue + [Some(d)] && r.evicted == s.evicted)
      && (r.gate && |s.queue| >= s.max ==> |r.queue| + |r.evicted| == |s.queue| + 1 + |s.evicted|)
      && r.results == s.results && r.delivered == s.delivered && r.tried == s.tried && r.batch == s.batch
  {
    hide Inv, Packets, Entries, Evict, Evicted;
    var d := Data(|s.arrived|, key, packet);
    NoNullQueued(s, d);
    EvictCount(Packets(s.queue) + [d], s.max);
  }

  lemma EvictCount<P>(q: seq<Data<P>>, max: nat)
    ensures |Entries(Evict(q, max))| + |Evicted(q, max)| == |q|
    ensures |q| <= max ==> Evict(q, max) == q && Evicted(q, max) == []
  {
    hide OldestNonKey;
  }

  /** GetFrame's answer goes with the packet at the head; a frame becomes pending, any
      other answer throws the rest of the batch away. */
  lemma DecodeDoes<P, F>(s: State<P, F>, outcome: Outcome<F>)
    requires Enabled(s, Decode(outcome)) && s.batch[0].Some?
    ensures var r := Take(s, Decode(outcome));
      && r.tried == s.tried + [Attempt(s.batch[0].value, outcome, s.batches)]
      && (outcome.Frame? ==> r.results == s.results + [outcome.frame] && r.worker.Working?
                             && r.batch == s.batch[1..] && r.discarded == s.discarded)
      && (!outcome.Frame? ==> r.results == s.results && r.worker.Top? && r.batch == []
                              && r.discarded == s.discarded + Packets(s.batch[1..]))
  {
    hide Packets;
  }

  /** ThreadStop sets the flag and pushes its null; a worker that then tests the flag
      before a batch ends, and inside one leaves it. */
  lemma StopDoes<P, F>(s: State<P, F>)
    ensures Enabled(s, SetStop) ==> Take(s, SetStop) == s.(phase := Stopping)
    ensures Enabled(s, PushNull) ==> Take(s, PushNull) == s.(phase := Stopped, queue := s.queue + [None])
    ensures Enabled(s, Look) ==> (Take(s, Look).worker.Done? <==> !s.phase.Running?)
    ensures Enabled(s, CheckStop) ==> (Take(s, CheckStop).worker.Done? <==> !s.phase.Running?)
    ensures s.worker.Working? && s.batch != [] ==> (Enabled(s, Leave) <==> !s.phase.Running?)
  {
    hide Packets;
  }

  lemma {:induction false} OldestNonKeyIs<P>(q: seq<Data<P>>, k: nat)
    requires k <= |q| && AllKeys(q[..k]) && (k < |q| ==> !q[k].key)
    ensures OldestNonKey(q) == k
    decreases k
  {
    if k == 0 {
    } else {
      assert q[..k][0].key;
      assert q[1..][..k - 1] == q[..k][1..];
      OldestNonKeyIs(q[1..], k - 1);
    }
  }

  lemma {:induction false} EntriesOfPackets<P>(q: seq<Option<Data<P>>>)
    requires None !in q
    ensures Entries(Packets(q)) == q && |Packets(q)| == |q|
    decreases |q|
  {
    if q == [] {
    } else {
      var n := |q| - 1;
      assert q[n].Some? && q[n] in q;
      EntriesOfPackets(q[..n]);
      assert q == q[..n] + [q[n]];
      assert Entries(Packets(q[..n]) + [q[n].value]) == Entries(Packets(q[..n])) + [q[n]];
    }
  }

  lemma EntriesWithout<P>(q: seq<Data<P>>, k: nat)
    requires k < |q|
    ensures Entries(q)[..k] + Entries(q)[k + 1..] == Entries(Without(q, k))
  {
    var a, b := Entries(q)[..k] + Entries(q)[k + 1..], Entries(Without(q, k));
    forall i | 0 <= i < |q| - 1 ensures a[i] == b[i] {}
  }

  /** The worker's steps on a batch of n; ThreadStop begins before the stopAt-th of
      its tests, if there is one. */
  function BatchSteps<P, F>(n: nat, outcomes: seq<Outcome<F>>, stopAt: nat): seq<Step<P, F>>
    requires |outcomes| >= n
  {
    if n == 0 then [Leave]
    else if stopAt == 0 then [SetStop, Leave]
    else [Decode(outcomes[0])] + if outcomes[0].Frame? then BatchSteps(n - 1, outcomes[1..], stopAt - 1) else []
  }

  class Decoder<P(==), F> {
    var decodeFromKeyFrame: bool
    var decodeStop: bool
    var decodeDatasMaxsize: nat
    var decodeDatas: seq<Option<Data<P>>>
    var decodeResults: seq<F>
    /** What the callback has been given. */
    var callbacks: seq<F>

    ghost predicate Shows(s: State<P, F>)
      reads this
    {
      && decodeFromKeyFrame == s.gate
      && decodeStop == Stop(s.phase)
      && decodeDatasMaxsize == s.max
      && decodeDatas == s.queue
      && decodeResults == s.results
      && callbacks == s.delivered
    }

    /** The members' initial values, then Open. */
    constructor (queueSize: int)
      ensures Shows(Start(queueSize))
    {
      decodeFromKeyFrame, decodeStop, decodeDatasMaxsize := false, true, 2;
      decodeDatas, decodeResults, callbacks := [], [], [];
      new;
      if queueSize >= 2 {
        decodeDatasMaxsize := queueSize;
      }
    }

    /** DecodeAsync up to the end of its first lock. */
    method Arrive(data: Data<P>, ghost s: State<P, F>)
      requires Shows(s) && Inv(s) && data.id == |s.arrived|
      requires Enabled(s, Step.Arrive(data.key, data.packet))
      modifies this
      ensures Shows(Next(s, Step.Arrive(data.key, data.packet)))
      ensures !decodeStop && decodeFromKeyFrame == (old(decodeFromKeyFrame) || data.key)
      ensures !decodeFromKeyFrame ==> decodeDatas == old(decodeDatas)
      ensures decodeFromKeyFrame && |old(decodeDatas)| < decodeDatasMaxsize ==>
              decodeDatas == old(decodeDatas) + [Some(data)]
      ensures decodeDatasMaxsize == old(decodeDatasMaxsize)
      ensures decodeResults == old(decodeResults) && callbacks == old(callbacks)
    {
      hide Inv, Packets, Entries, Evict, Evicted;
      decodeStop := false;
      if !decodeFromKeyFrame {
        if !data.key {
          return;
        }
        decodeFromKeyFrame := true;
      }
      ghost var q := Packets(s.queue) + [data];
      NoNullQueued(s, data);
      decodeDatas := decodeDatas + [Some(data)];
      if |decodeDatas| > decodeDatasMaxsize {
        EvictOldest(q);
      } else {
        WithinBound(q, decodeDatasMaxsize);
      }
    }

    /** The loop over the queue that erases the first packet that is not a key
        packet and leaves. */
    method EvictOldest(ghost q: seq<Data<P>>)
      requires decodeDatas == Entries(q) && |q| > decodeDatasMaxsize
      modifies this`decodeDatas
      ensures decodeDatas == Entries(Evict(q, decodeDatasMaxsize))
    {
      var it := 0;
      while it < |decodeDatas|
        invariant it <= |decodeDatas| && decodeDatas == Entries(q) && AllKeys(q[..it])
      {
        if decodeDatas[it].value.key {
          assert q[..it + 1] == q[..it] + [q[it]];
          it := it + 1;
          continue;
        }
        OldestNonKeyIs(q, it);
        EntriesWithout(q, it);
        decodeDatas := decodeDatas[..it] + decodeDatas[it + 1..];
        return;
      }
      assert q[..it] == q;
      OldestNonKeyIs(q, |q|);
    }

    /** The rest of DecodeAsync: every pending frame to the callback. */
    method Flush(ghost s: State<P, F>)
      requires Shows(s) && Enabled(s, Step.Flush)
      modifies this
      ensures Shows(Next(s, Step.Flush))
      ensures callbacks == old(callbacks) + old(decodeResults) && decodeResults == []
      ensures decodeFromKeyFrame == old(decodeFromKeyFrame) && decodeStop == old(decodeStop)
      ensures decodeDatasMaxsize == old(decodeDatasMaxsize) && decodeDatas == old(decodeDatas)
    {
      if decodeResults != [] {
        for i := 0 to |decodeResults|
          invariant decodeFromKeyFrame == old(decodeFromKeyFrame) && decodeStop == old(decodeStop)
          invariant decodeDatasMaxsize == old(decodeDatasMaxsize)
          invariant decodeDatas == old(decodeDatas) && decodeResults == old(decodeResults)
          invariant callbacks == old(callbacks) + decodeResults[..i]
        {
          callbacks := callbacks + [decodeResults[i]];
        }
        decodeResults := [];
      }
    }

    /** The packets move out of the queue, under the lock. */
    method Grab(ghost s: State<P, F>) returns (datas: seq<Option<Data<P>>>)
      requires Shows(s) && Enabled(s, Step.Grab)
      modifies this`decodeDatas
      ensures Shows(Next(s, Step.Grab)) && datas == Next(s, Step.Grab).batch
      ensures datas == old(decodeDatas) && decodeDatas == []
    {
      datas := decodeDatas;
      decodeDatas := [];
    }

    /** One packet of the batch, when GetFrame has answered. */
    method DecodeOne(outcome: Outcome<F>, ghost t: State<P, F>)
      requires Shows(t) && t.worker.Working? && t.batch != [] && t.batch[0].Some?
      modifies this`decodeResults
      ensures Shows(Next(t, Decode(outcome)))
      ensures decodeResults == old(decodeResults) + if outcome.Frame? then [outcome.frame] else []
    {
      hide Packets, Next;
      DecodeMoves(t, outcome);
      if outcome.Frame? {
        decodeResults := decodeResults + [outcome.frame];
      }
    }

    /** Another thread's ThreadStop, up to its lock. */
    method SetStop(ghost t: State<P, F>)
      requires Shows(t) && t.phase.Running?
      modifies this`decodeStop
      ensures Shows(t.(phase := Stopping)) && decodeStop
    {
      decodeStop := true;
    }

    lemma Shown(t: State<P, F>)
      requires Shows(t)
      ensures decodeStop == Stop(t.phase) && Shows(GaveUp(t, Top)) && GaveUp(t, Top).worker.Top?
    {
      hide Packets;
    }

    /** The loop over a batch; outcomes: what the codec answers, packet by packet;
        stopAt: before which packet another thread's ThreadStop sets decode_stop_.
        No null pointer is in a batch grabbed before it: GrabMoves. */
    method DecodeBatch(datas: seq<Option<Data<P>>>, outcomes: seq<Outcome<F>>, stopAt: nat, ghost s: State<P, F>)
      requires Shows(s) && s.worker.Working? && s.phase.Running? && s.batch == datas && None !in datas
      requires |outcomes| >= |datas| && (stopAt < |datas| ==> !s.flushing)
      modifies this`decodeResults, this`decodeStop
      ensures Shows(TakeAll(s, BatchSteps(|datas|, outcomes, stopAt)))
      ensures TakeAll(s, BatchSteps(|datas|, outcomes, stopAt)).worker.Top?
    {
      hide TakeAll, BatchSteps, Packets, Next, Shows, GaveUp;
      hide InBatch, Rest;
      BatchStarts(s, datas, outcomes, stopAt);
      ghost var t := s;
      var i := 0;
      while i < |datas|
        invariant i <= |datas| && i <= stopAt && Shows(t) && InBatch(t, s, datas, i)
        invariant Rest(s, datas, outcomes, 0, stopAt) == Rest(t, datas, outcomes, i, stopAt)
      {
        Shown(t);
        BatchGoesOn(t, s, datas, i);
        if i == stopAt {
          BatchStops(t, s, datas, outcomes, i);
          SetStop(t);
          Shown(t.(phase := Stopping));
        }
        if decodeStop {
          return;
        }
        BatchRound(t, s, datas, outcomes, i, stopAt);
        DecodeOne(outcomes[i], t);
        t := Next(t, Decode(outcomes[i]));
        if !outcomes[i].Frame? {
          return;
        }
        i := i + 1;
      }
      BatchEnds(t, s, datas, outcomes, stopAt);
      Shown(t);
    }

    /** One turn of the worker's loop, from the end of the wait on. */
    method WorkerTurn(outcomes: seq<Outcome<F>>, stopAt: nat, ghost s: State<P, F>)
      requires Shows(s) && NullOk(s) && s.worker.Waiting? && s.queue != []
      requires |outcomes| >= |s.queue| && (stopAt < |s.queue| ==> !s.flushing)
      modifies this`decodeDatas, this`decodeResults, this`decodeStop
      ensures var n := |s.queue|;
        Shows(TakeAll(s, [Step.Grab, CheckStop] + if Stop(s.phase) then [] else BatchSteps(n, outcomes, stopAt)))
    {
      hide TakeAll, BatchSteps, Packets, Take, Next, GaveUp;
      GrabMoves(s);
      ghost var g := Next(s, Step.Grab);
      TwoThen(s, Step.Grab, CheckStop, if Stop(s.phase) then [] else BatchSteps(|s.queue|, outcomes, stopAt));
      var datas := Grab(s);
      if decodeStop {
        ShownDone(g);
        return;
      }
      DecodeBatch(datas, outcomes, stopAt, g.(worker := Working));
    }

    lemma ShownDone(g: State<P, F>)
      requires Shows(g)
      ensures Shows(TakeAll(GaveUp(g, Done), []))
    {
      hide Packets;
    }
  }

  /** The worker is before packet i of the batch. */
  ghost predicate InBatch<P, F>(t: State<P, F>, s: State<P, F>, datas: seq<Option<Data<P>>>, i: nat)
    requires i <= |datas|
  {
    t.worker.Working? && t.phase.Running? && t.batch == datas[i..] && t.flushing == s.flushing
  }

  /** What becomes of t when the batch is done from packet i on. */
  function Rest<P, F>(t: State<P, F>, datas: seq<Option<Data<P>>>, outcomes: seq<Outcome<F>>, i: nat, stopAt: nat): State<P, F>
    requires i <= |datas| <= |outcomes| && i <= stopAt
  {
    TakeAll(t, BatchSteps(|datas| - i, outcomes[i..], stopAt - i))
  }

  lemma BatchStarts<P, F>(s: State<P, F>, datas: seq<Option<Data<P>>>, outcomes: seq<Outcome<F>>, stopAt: nat)
    requires s.worker.Working? && s.phase.Running? && s.batch == datas && |datas| <= |outcomes|
    ensures InBatch(s, s, datas, 0)
    ensures Rest(s, datas, outcomes, 0, stopAt) == TakeAll(s, BatchSteps(|datas|, outcomes, stopAt))
  {
    hide TakeAll, BatchSteps;
    assert outcomes[0..] == outcomes && datas[0..] == datas;
  }

  lemma BatchGoesOn<P, F>(t: State<P, F>, s: State<P, F>, datas: seq<Option<Data<P>>>, i: nat)
    requires i < |datas| && InBatch(t, s, datas, i) && None !in datas
    ensures t.worker.Working? && t.phase.Running? && t.flushing == s.flushing
    ensures t.batch != [] && t.batch[0].Some?
  {
    assert datas[i] in datas;
  }

  /** One packet is decoded: what is left is the rest of the batch, or nothing. */
  lemma BatchRound<P, F>(t: State<P, F>, s: State<P, F>, datas: seq<Option<Data<P>>>, outcomes: seq<Outcome<F>>,
                         i: nat, stopAt: nat)
    requires i < |datas| <= |outcomes| && i < stopAt && InBatch(t, s, datas, i) && None !in datas
    ensures t.batch != [] && t.batch[0].Some? && Enabled(t, Decode(outcomes[i]))
    ensures var r := Next(t, Decode(outcomes[i]));
      if outcomes[i].Frame? then
        InBatch(r, s, datas, i + 1) && Rest(t, datas, outcomes, i, stopAt) == Rest(r, datas, outcomes, i + 1, stopAt)
      else r.worker.Top? && Rest(t, datas, outcomes, i, stopAt) == r
  {
    hide TakeAll, BatchSteps, Next;
    BatchGoesOn(t, s, datas, i);
    assert outcomes[i..][0] == outcomes[i] && outcomes[i..][1..] == outcomes[i + 1..];
    assert datas[i..][1..] == datas[i + 1..];
    BatchAdvances(t, outcomes[i..], stopAt - i);
    DecodeMoves(t, outcomes[i]);
  }

  /** What the worker has after the lock. */
  lemma GrabMoves<P, F>(s: State<P, F>)
    requires NullOk(s) && s.worker.Waiting? && s.queue != []
    ensures var g := Take(s, Grab);
      && g.batch == s.queue && g.phase == s.phase && g.flushing == s.flushing && Enabled(g, CheckStop)
      && g == Next(s, Grab)
      && Take(g, CheckStop) == if Stop(s.phase) then GaveUp(g, Done) else g.(worker := Working)
    ensures s.phase.Running? ==> None !in s.queue
  {
    hide Packets;
  }

  lemma TwoThen<P, F>(s: State<P, F>, a: Step<P, F>, b: Step<P, F>, rest: seq<Step<P, F>>)
    ensures TakeAll(s, [a, b] + rest) == TakeAll(Take(Take(s, a), b), rest)
  {
    hide Take;
    var run := [a, b] + rest;
    assert run[0] == a && run[1..] == [b] + rest && run[1..][1..] == rest;
  }

  lemma WithinBound<P>(q: seq<Data<P>>, max: nat)
    requires |q| <= max
    ensures Evict(q, max) == q
  {}

  lemma NoNullQueued<P, F>(s: State<P, F>, d: Data<P>)
    requires Inv(s) && !s.phase.Stopped?
    ensures s.queue + [Some(d)] == Entries(Packets(s.queue) + [d])
    ensures |s.queue| == |Packets(s.queue)|
  {
    hide GateOk, PlacesOk, QueueOk, DataOf, FramesOf, Line;
    EntriesOfPackets(s.queue);
  }

  lemma BatchAdvances<P, F>(t: State<P, F>, outcomes: seq<Outcome<F>>, stopAt: nat)
    requires t.worker.Working? && t.batch != [] && t.batch[0].Some? && |outcomes| >= |t.batch| && stopAt > 0
    ensures TakeAll(t, BatchSteps(|t.batch|, outcomes, stopAt)) ==
            if outcomes[0].Frame? then
              TakeAll(Next(t, Decode(outcomes[0])), BatchSteps(|t.batch| - 1, outcomes[1..], stopAt - 1))
            else Next(t, Decode(outcomes[0]))
  {
    hide Packets;
    var rest: seq<Step<P, F>> :=
      if outcomes[0].Frame? then BatchSteps<P, F>(|t.batch| - 1, outcomes[1..], stopAt - 1) else [];
    var steps := BatchSteps<P, F>(|t.batch|, outcomes, stopAt);
    assert steps == [Decode(outcomes[0])] + rest;
    hide BatchSteps, Next;
    assert steps[0] == Decode(outcomes[0]) && steps[1..] == rest;
  }

  lemma BatchStops<P, F>(t: State<P, F>, s: State<P, F>, datas: seq<Option<Data<P>>>, outcomes: seq<Outcome<F>>, i: nat)
    requires i < |datas| <= |outcomes| && InBatch(t, s, datas, i) && !s.flushing
    ensures Rest(t, datas, outcomes, i, i) == GaveUp(t.(phase := Stopping), Top)
  {
    var steps: seq<Step<P, F>> := [SetStop, Leave];
    var u := t.(phase := Stopping);
    TakeTwo(t, SetStop, Leave);
    hide GaveUp, TakeAll;
    assert Take(t, SetStop) == u && Take(u, Leave) == GaveUp(u, Top);
  }

  lemma TakeTwo<P, F>(t: State<P, F>, a: Step<P, F>, b: Step<P, F>)
    ensures TakeAll(t, [a, b]) == Take(Take(t, a), b) && TakeAll(t, [a]) == Take(t, a)
  {
    hide Take;
    assert [a, b][1..] == [b] && [b][1..] == [] && [a][1..] == [];
    assert TakeAll(Take(t, a), [b]) == Take(Take(t, a), b);
  }

  lemma DecodeMoves<P, F>(t: State<P, F>, outcome: Outcome<F>)
    requires t.worker.Working? && t.batch != [] && t.batch[0].Some?
    ensures var r := Next(t, Decode(outcome));
            && r.gate == t.gate && r.phase == t.phase && r.max == t.max && r.queue == t.queue
            && r.delivered == t.delivered && r.flushing == t.flushing
            && r.results == t.results + (if outcome.Frame? then [outcome.frame] else [])
            && r.worker == (if outcome.Frame? then Working else Top)
            && r.batch == (if outcome.Frame? then t.batch[1..] else [])
  {
    hide Packets;
  }

  lemma BatchEnds<P, F>(t: State<P, F>, s: State<P, F>, datas: seq<Option<Data<P>>>, outcomes: seq<Outcome<F>>, stopAt: nat)
    requires |datas| <= |outcomes| && |datas| <= stopAt && InBatch(t, s, datas, |datas|)
    ensures Rest(t, datas, outcomes, |datas|, stopAt) == GaveUp(t, Top)
  {
    TakeTwo(t, Leave, Leave);
    hide GaveUp, TakeAll;
  }
}
