/**
 The send queues of a WebSocket session (rtsp-ws-proxy/ws_session.h, lossy)
 and of the local client (ws-local-player/ws_client.h, lossless).

 A `Queue` carries the queue itself, whether the environment holds a write, and
 the history the properties speak of.  The handlers are the functions `Send`,
 `WriteDone`, `WriteFail`; the classes run them in place.
 */
module SendQueue {
  import opened Options
  import opened Sequences

  /** How a message left the queue. */
  datatype Departed<T> = Written(msg: T) | Dropped(msg: T)

  /** max: send_queue_max_size_; None: no bound, as in the client.
      writing: a write is in flight.  failed: a write has failed.
      The rest is history: messages enqueued, messages gone from the front in
      the order they went, messages handed to async_write. */
  datatype Queue<T> = Queue(
    max: Bound, queue: seq<T>, writing: bool, failed: bool,
    enqueued: seq<T>, departed: seq<Departed<T>>, started: seq<T>)

  datatype Bound = AtMost(n: nat) | Unbounded

  function Empty<T>(max: Bound): Queue<T> {
    Queue(max, [], false, false, [], [], [])
  }

  /** What the constructor makes of the configured size: an int, passed as an
      unsigned 64-bit one; only 0 is raised to 1. */
  function SessionBound(configured: int): Bound {
    var n := configured % 0x1_0000_0000_0000_0000;
    AtMost(if n == 0 then 1 else n)
  }

  // ------------------------------------------------------------- the handlers

  /** DoWrite on the front: async_write is called with it. */
  function StartWrite<T>(q: Queue<T>): Queue<T>
    requires q.queue != []
  {
    q.(writing := true, started := q.started + [q.queue[0]])
  }

  /** DoSend. */
  function Send<T>(q: Queue<T>, m: T): Queue<T> {
    var r := q.(queue := q.queue + [m], enqueued := q.enqueued + [m]);
    if |r.queue| > 1 then r else StartWrite(r)
  }

  function AllDropped<T>(ms: seq<T>): seq<Departed<T>> {
    if ms == [] then [] else AllDropped(ms[..|ms| - 1]) + [Dropped(ms[|ms| - 1])]
  }

  /** How many waiting messages a completion removes unwritten. */
  function Excess(max: Bound, waiting: nat): nat {
    if max.AtMost? && max.n > 0 && waiting > max.n then waiting - max.n else 0
  }

  /** OnWrite without an error. */
  function WriteDone<T>(q: Queue<T>): Queue<T>
    requires q.queue != []
  {
    var rest := q.queue[1..];
    var k := Excess(q.max, |rest|);
    var r := q.(queue := rest[k..], writing := false,
                departed := q.departed + [Written(q.queue[0])] + AllDropped(rest[..k]));
    if r.queue != [] then StartWrite(r) else r
  }

  /** OnWrite with an error: the front stays where it is. */
  function WriteFail<T>(q: Queue<T>): Queue<T> {
    q.(writing := false, failed := true)
  }

  // ------------------------------------------------------------------ histories

  function WrittenOf<T>(d: seq<Departed<T>>): seq<T> {
    if d == [] then []
    else WrittenOf(d[..|d| - 1]) + (if d[|d| - 1].Written? then [d[|d| - 1].msg] else [])
  }

  function DroppedOf<T>(d: seq<Departed<T>>): seq<T> {
    if d == [] then []
    else DroppedOf(d[..|d| - 1]) + (if d[|d| - 1].Dropped? then [d[|d| - 1].msg] else [])
  }

  function Messages<T>(d: seq<Departed<T>>): (r: seq<T>) {
    if d == [] then [] else Messages(d[..|d| - 1]) + [d[|d| - 1].msg]
  }

  function WrittenBy<T>(q: Queue<T>): seq<T> {
    WrittenOf(q.departed)
  }

  // ------------------------------------------------------------------ invariant

  /** Kept by every handler: what left at the front, followed by what is queued,
      is what was enqueued; one write is in flight exactly when something is
      queued and no write has failed; and what async_write was given is what was
      written, then the front. */
  ghost predicate Consistent<T>(q: Queue<T>) {
    && (q.max.AtMost? ==> q.max.n >= 1)
    && Messages(q.departed) + q.queue == q.enqueued
    && (q.writing <==> q.queue != [] && !q.failed)
    && (q.failed ==> q.queue != [])
    && q.started == WrittenBy(q) + q.queue[..if q.queue == [] then 0 else 1]
  }

  lemma {:induction false} HistoriesAppend<T>(d: seq<Departed<T>>, e: seq<Departed<T>>)
    ensures WrittenOf(d + e) == WrittenOf(d) + WrittenOf(e)
    ensures DroppedOf(d + e) == DroppedOf(d) + DroppedOf(e)
    ensures Messages(d + e) == Messages(d) + Messages(e)
    decreases |e|
  {
    if e == [] {
      assert d + e == d;
    } else {
      var x, f := e[|e| - 1], e[..|e| - 1];
      HistoriesAppend(d, f);
      assert (d + e)[..|d + e| - 1] == d + f && (d + e)[|d + e| - 1] == x;
      Assoc(Messages(d), Messages(f), [x.msg]);
      Assoc(WrittenOf(d), WrittenOf(f), if x.Written? then [x.msg] else []);
      Assoc(DroppedOf(d), DroppedOf(f), if x.Dropped? then [x.msg] else []);
    }
  }

  lemma {:induction false} HistoriesOfDropped<T>(ms: seq<T>)
    ensures WrittenOf(AllDropped(ms)) == [] && DroppedOf(AllDropped(ms)) == ms
    ensures Messages(AllDropped(ms)) == ms
    decreases |ms|
  {
    if ms == [] {
    } else {
      var n := |ms| - 1;
      HistoriesOfDropped(ms[..n]);
      var d := AllDropped(ms);
      assert d[..|d| - 1] == AllDropped(ms[..n]) && d[|d| - 1] == Dropped(ms[n]);
      assert ms[..n] + [ms[n]] == ms;
    }
  }

  lemma HistoriesOfOne<T>(x: Departed<T>)
    ensures WrittenOf([x]) == (if x.Written? then [x.msg] else [])
    ensures DroppedOf([x]) == (if x.Dropped? then [x.msg] else [])
    ensures Messages([x]) == [x.msg]
  {
    assert [x][..0] == [];
  }

  lemma CompletionHistories<T>(d: seq<Departed<T>>, x: T, drop: seq<T>)
    ensures var e := d + [Written(x)] + AllDropped(drop);
      && WrittenOf(e) == WrittenOf(d) + [x]
      && DroppedOf(e) == DroppedOf(d) + drop
      && Messages(e) == Messages(d) + [x] + drop
  {
    hide WrittenOf, DroppedOf, Messages, AllDropped;
    var w := [Written(x)];
    HistoriesOfOne(w[0]);
    HistoriesAppend(d, w);
    HistoriesAppend(d + w, AllDropped(drop));
    HistoriesOfDropped(drop);
    assert WrittenOf(d) + [x] + [] == WrittenOf(d) + [x];
    assert DroppedOf(d) + [] == DroppedOf(d);
  }

  lemma EmptyConsistent<T>(max: Bound)
    requires max.AtMost? ==> max.n >= 1
    ensures Consistent(Empty<T>(max))
  {}

  lemma SendConsistent<T>(q: Queue<T>, m: T)
    requires Consistent(q)
    ensures Consistent(Send(q, m))
  {
    assert Messages(q.departed) + (q.queue + [m]) == q.enqueued + [m];
  }

  /** The waiting messages a completion removes unwritten, and those it keeps. */
  function Cut<T>(q: Queue<T>): (r: (seq<T>, seq<T>))
    requires q.queue != []
    ensures q.queue == [q.queue[0]] + r.0 + r.1
  {
    var rest := q.queue[1..];
    var k := Excess(q.max, |rest|);
    (rest[..k], rest[k..])
  }

  lemma WriteDoneFields<T>(q: Queue<T>)
    requires q.queue != []
    ensures var r := WriteDone(q);
      && r.queue == Cut(q).1 && r.enqueued == q.enqueued && r.max == q.max && r.failed == q.failed
      && r.departed == q.departed + [Written(q.queue[0])] + AllDropped(Cut(q).0)
      && r.writing == (r.queue != [])
      && r.started == q.started + r.queue[..if r.queue == [] then 0 else 1]
  {}

  /** What a completion does: the front is written, the oldest waiting messages
      beyond the bound go with it as one block, the rest stays in order. */
  lemma WriteDoneEffect<T>(q: Queue<T>)
    requires q.queue != []
    ensures var r := WriteDone(q);
      && r.queue == Cut(q).1 && q.queue == [q.queue[0]] + Cut(q).0 + r.queue
      && WrittenBy(r) == WrittenBy(q) + [q.queue[0]]
      && DroppedOf(r.departed) == DroppedOf(q.departed) + Cut(q).0
      && Messages(r.departed) == Messages(q.departed) + [q.queue[0]] + Cut(q).0
  {
    hide WriteDone, Cut, WrittenOf, DroppedOf, Messages, AllDropped;
    WriteDoneFields(q);
    CompletionHistories(q.departed, q.queue[0], Cut(q).0);
  }

  function Min(a: int, b: int): int {
    if a <= b then a else b
  }

  /** How many messages a completion keeps: of the waiting ones the newest, as many as
      the bound allows, and all of them when there is no bound. */
  lemma KeepsTheNewest<T>(q: Queue<T>)
    requires Consistent(q) && q.queue != []
    ensures var waiting := |q.queue| - 1;
      WriteDone(q).queue == q.queue[|q.queue| - (if q.max.AtMost? then Min(q.max.n, waiting) else waiting)..]
  {
    hide Messages, WrittenOf;
    WriteDoneFields(q);
  }

  lemma WriteDoneConserves<T>(q: Queue<T>)
    requires q.queue != [] && Messages(q.departed) + q.queue == q.enqueued
    ensures var r := WriteDone(q); Messages(r.departed) + r.queue == r.enqueued
  {
    hide WriteDone, Cut, Messages, WrittenOf, DroppedOf, AllDropped;
    WriteDoneFields(q);
    WriteDoneEffect(q);
    var m, x, drop, keep := Messages(q.departed), [q.queue[0]], Cut(q).0, Cut(q).1;
    Assoc(m + x, drop, keep);
    Assoc(m, x, drop + keep);
    Assoc(x, drop, keep);
  }

  lemma WriteDoneConsistent<T>(q: Queue<T>)
    requires Consistent(q) && q.writing
    ensures Consistent(WriteDone(q))
  {
    hide WriteDone, Cut, Messages, WrittenOf, DroppedOf, AllDropped;
    WriteDoneFields(q);
    WriteDoneEffect(q);
    WriteDoneConserves(q);
    assert q.queue[..1] == [q.queue[0]];
  }

  lemma WriteFailConsistent<T>(q: Queue<T>)
    requires Consistent(q) && q.writing
    ensures Consistent(WriteFail(q))
  {}

  // ----------------------------------------------------------------- whole runs

  datatype Event<T> = Enqueue(msg: T) | Completion | Failure

  /** Only an outstanding write can complete or fail. */
  predicate Enabled<T>(q: Queue<T>, e: Event<T>) {
    e.Enqueue? || q.writing
  }

  function Step<T>(q: Queue<T>, e: Event<T>): Queue<T> {
    match e
    case Enqueue(m) => Send(q, m)
    case Completion => if q.queue == [] then q else WriteDone(q)
    case Failure => WriteFail(q)
  }

  predicate Legal<T>(q: Queue<T>, run: seq<Event<T>>)
    decreases |run|
  {
    run == [] || (Enabled(q, run[0]) && Legal(Step(q, run[0]), run[1..]))
  }

  function Run<T>(q: Queue<T>, run: seq<Event<T>>): Queue<T>
    decreases |run|
  {
    if run == [] then q else Run(Step(q, run[0]), run[1..])
  }

  lemma StepConsistent<T>(q: Queue<T>, e: Event<T>)
    requires Consistent(q) && Enabled(q, e)
    ensures Consistent(Step(q, e))
  {
    match e
    case Enqueue(m) => SendConsistent(q, m);
    case Completion => WriteDoneConsistent(q);
    case Failure => WriteFailConsistent(q);
  }

  function Message<T>(e: Event<T>): seq<T> {
    if e.Enqueue? then [e.msg] else []
  }

  function Sent<T>(run: seq<Event<T>>): seq<T> {
    if run == [] then [] else Message(run[0]) + Sent(run[1..])
  }

  lemma {:induction false} WrittenIsSubsequence<T>(d: seq<Departed<T>>)
    ensures Subsequence(WrittenOf(d), Messages(d))
    decreases |d|
  {
    if d == [] {
    } else {
      var n := |d| - 1;
      WrittenIsSubsequence(d[..n]);
      var m := Messages(d);
      assert m[..|m| - 1] == Messages(d[..n]);
      var w := WrittenOf(d);
      if d[n].Written? {
        assert w[..|w| - 1] == WrittenOf(d[..n]);
      } else {
        assert w == WrittenOf(d[..n]);
      }
    }
  }

  lemma {:induction false} WrittenOrDropped<T>(d: seq<Departed<T>>)
    ensures multiset(Messages(d)) == multiset(WrittenOf(d)) + multiset(DroppedOf(d))
    decreases |d|
  {
    if d == [] {
    } else {
      WrittenOrDropped(d[..|d| - 1]);
    }
  }

  /** The newest message is queued, or was written; it is never dropped. */
  ghost predicate NewestKept<T>(q: Queue<T>) {
    q.queue == [] && q.departed != [] ==> q.departed[|q.departed| - 1].Written?
  }

  lemma StepKeepsNewest<T>(q: Queue<T>, e: Event<T>)
    requires Consistent(q) && NewestKept(q) && Enabled(q, e)
    ensures NewestKept(Step(q, e))
  {
    if e.Completion? {
      hide Messages, WrittenOf;
      WriteDoneFields(q);
      assert Cut(q).1 == [] ==> Cut(q).0 == [];
    }
  }

  lemma {:induction false} RunConsistent<T>(q: Queue<T>, run: seq<Event<T>>)
    requires Consistent(q) && NewestKept(q) && Legal(q, run)
    ensures Consistent(Run(q, run)) && NewestKept(Run(q, run))
    decreases |run|
  {
    if run == [] {
    } else {
      StepConsistent(q, run[0]);
      StepKeepsNewest(q, run[0]);
      hide Consistent, Step, NewestKept;
      RunConsistent(Step(q, run[0]), run[1..]);
    }
  }

  lemma {:induction false} RunEnqueued<T>(q: Queue<T>, run: seq<Event<T>>)
    ensures Run(q, run).enqueued == q.enqueued + Sent(run)
    decreases |run|
  {
    if run == [] {
      assert q.enqueued + Sent(run) == q.enqueued;
    } else {
      var x := Message(run[0]);
      var r := Step(q, run[0]);
      assert r.enqueued == q.enqueued + x;
      hide Step;
      RunEnqueued(r, run[1..]);
      Assoc(q.enqueued, x, Sent(run[1..]));
    }
  }

  /** Conservation, over every run from the empty queue: what was enqueued is
      what was written, dropped and is queued, each message once; the written
      ones followed by the queued ones are in the order of enqueueing; and the
      newest message is not among the dropped ones. */
  lemma Conservation<T>(max: Bound, run: seq<Event<T>>)
    requires (max.AtMost? ==> max.n >= 1) && Legal(Empty(max), run)
    ensures var r := Run(Empty(max), run);
      && r.enqueued == Sent(run)
      && multiset(Sent(run)) == multiset(WrittenBy(r)) + multiset(DroppedOf(r.departed)) + multiset(r.queue)
      && Subsequence(WrittenBy(r) + r.queue, Sent(run))
      && Messages(r.departed) + r.queue == Sent(run)
      && NewestKept(r)
  {
    EmptyConsistent<T>(max);
    RunConsistent(Empty(max), run);
    RunEnqueued(Empty(max), run);
    var r := Run(Empty(max), run);
    assert [] + Sent(run) == Sent(run);
    WrittenIsSubsequence(r.departed);
    WrittenOrDropped(r.departed);
    SubsequenceAppend(WrittenBy(r), Messages(r.departed), r.queue);
  }

  /** Single writer, over every run: a write is in flight exactly when something
      is queued and no write has failed, and async_write has been given the
      written messages and then the front, nothing else. */
  lemma SingleWriter<T>(max: Bound, run: seq<Event<T>>)
    requires (max.AtMost? ==> max.n >= 1) && Legal(Empty(max), run)
    ensures var r := Run(Empty(max), run);
      && (r.writing <==> r.queue != [] && !r.failed)
      && r.started == WrittenBy(r) + (if r.queue == [] then [] else [r.queue[0]])
  {
    EmptyConsistent<T>(max);
    RunConsistent(Empty(max), run);
    var q := Run(Empty(max), run).queue;
    assert q != [] ==> q[..1] == [q[0]];
  }

  // -------------------------------------------------------------------- draining

  function Completions<T>(n: nat): seq<Event<T>> {
    if n == 0 then [] else [Completion] + Completions(n - 1)
  }

  /** How many completions it takes to become idle. */
  function Rounds<T>(q: Queue<T>): nat {
    if q.queue == [] then 0 else |q.queue| - Excess(q.max, |q.queue| - 1)
  }

  /** After a completion at most max messages are queued. */
  lemma BoundedAfterCompletion<T>(q: Queue<T>)
    requires Consistent(q) && q.writing && q.max.AtMost?
    ensures |WriteDone(q).queue| <= q.max.n
  {
    WriteDoneFields(q);
  }

  lemma {:induction false} RunOneMore<T>(q: Queue<T>, run: seq<Event<T>>, e: Event<T>)
    requires Legal(q, run + [e])
    ensures Legal(q, run) && Enabled(Run(q, run), e) && Run(q, run + [e]) == Step(Run(q, run), e)
    decreases |run|
  {
    hide Step, Enabled;
    if run == [] {
      assert [] + [e] == [e] && [e][1..] == [];
      assert Run(q, [e]) == Run(Step(q, e), []);
    } else {
      assert (run + [e])[1..] == run[1..] + [e] && (run + [e])[0] == run[0];
      RunOneMore(Step(q, run[0]), run[1..], e);
    }
  }

  /** The sends since the last completion. */
  function SendsSince<T>(run: seq<Event<T>>): nat {
    if run == [] || run[|run| - 1].Completion? then 0
    else SendsSince(run[..|run| - 1]) + |Message(run[|run| - 1])|
  }

  ghost predicate SomeCompletion<T>(run: seq<Event<T>>) {
    exists i :: 0 <= i < |run| && run[i].Completion?
  }

  lemma CompletionOneMore<T>(run: seq<Event<T>>, e: Event<T>)
    ensures SomeCompletion(run + [e]) <==> SomeCompletion(run) || e.Completion?
  {
    assert (run + [e])[|run|] == e;
    if SomeCompletion(run) {
      var i :| 0 <= i < |run| && run[i].Completion?;
      assert (run + [e])[i] == run[i];
    }
  }

  lemma StepSize<T>(q: Queue<T>, e: Event<T>)
    requires Consistent(q) && Enabled(q, e) && q.max.AtMost?
    ensures Step(q, e).max == q.max
    ensures if e.Completion? then |Step(q, e).queue| <= q.max.n else |Step(q, e).queue| == |q.queue| + |Message(e)|
  {
    hide Messages, WrittenOf;
    if e.Completion? { BoundedAfterCompletion(q); }
  }

  /** At all times: no more is queued than the sends since the last completion, and
      max besides once there was one. */
  lemma {:induction false} BoundedAlways<T>(max: nat, run: seq<Event<T>>)
    requires max >= 1 && Legal(Empty(AtMost(max)), run)
    ensures |Run(Empty<T>(AtMost(max)), run).queue| <= SendsSince(run) + (if SomeCompletion(run) then max else 0)
    ensures Run(Empty<T>(AtMost(max)), run).max == AtMost(max)
    decreases |run|
  {
    var q := Empty<T>(AtMost(max));
    if run == [] {
      assert Run(q, run) == q;
    } else {
      hide Step, Enabled, Empty, Run, Legal, SomeCompletion, Consistent;
      var n := |run| - 1;
      assert run == run[..n] + [run[n]];
      RunOneMore(q, run[..n], run[n]);
      BoundedAlways(max, run[..n]);
      CompletionOneMore(run[..n], run[n]);
      EmptyKept<T>(AtMost(max));
      RunConsistent(q, run[..n]);
      StepSize(Run(q, run[..n]), run[n]);
    }
  }

  lemma EmptyKept<T>(max: Bound)
    requires max.AtMost? ==> max.n >= 1
    ensures Consistent(Empty<T>(max)) && NewestKept(Empty<T>(max))
  {}

  lemma SendsFirst<T>(q: Queue<T>, ms: seq<T>)
    requires ms != []
    ensures Run(q, Sends(ms)) == Run(Send(q, ms[0]), Sends(ms[1..]))
    ensures Legal(q, Sends(ms)) <==> Legal(Send(q, ms[0]), Sends(ms[1..]))
    ensures Send(q, ms[0]).queue == q.queue + [ms[0]]
  {
    var run := Sends(ms);
    assert run[0] == Enqueue(ms[0]) && run[1..] == Sends(ms[1..]);
    hide Sends;
  }

  /** Sends alone lengthen the queue by their number, from any state: between
      completions nothing else bounds it. */
  lemma {:induction false} SendsAdd<T>(q: Queue<T>, ms: seq<T>)
    ensures Run(q, Sends(ms)).queue == q.queue + ms && Legal(q, Sends(ms))
    decreases |ms|
  {
    if ms == [] {
      assert q.queue + [] == q.queue;
    } else {
      hide Sends, Run, Legal, Send;
      SendsFirst(q, ms);
      SendsAdd(Send(q, ms[0]), ms[1..]);
      Assoc(q.queue, [ms[0]], ms[1..]);
      assert [ms[0]] + ms[1..] == ms;
    }
  }

  function Sends<T>(ms: seq<T>): seq<Event<T>> {
    if ms == [] then [] else [Enqueue(ms[0])] + Sends(ms[1..])
  }

  /** With no further sends a queue that has not failed is idle after exactly
      Rounds completions, at most max + 1, and writing until then. */
  lemma {:induction false} DrainsIn<T>(q: Queue<T>, n: nat)
    requires Consistent(q) && !q.failed && n <= Rounds(q)
    ensures Legal(q, Completions<T>(n))
    ensures Run(q, Completions<T>(n)).queue == [] <==> n == Rounds(q)
    ensures q.max.AtMost? ==> Rounds(q) <= q.max.n + 1
    decreases n
  {
    if n == 0 {
    } else {
      var r := WriteDone(q);
      var run := Completions<T>(n);
      WriteDoneFields(q);
      WriteDoneConsistent(q);
      assert Rounds(r) == Rounds(q) - 1;
      DrainsIn(r, n - 1);
      assert run[0] == Completion && run[1..] == Completions<T>(n - 1);
    }
  }

  // ------------------------------------------------------------ after a failure

  lemma FailedStep<T>(q: Queue<T>, e: Event<T>)
    requires Consistent(q) && q.failed && Enabled(q, e)
    ensures var r := Step(q, e);
      && Consistent(r) && r.failed
      && r.started == q.started && r.departed == q.departed && !r.writing
      && r.queue == q.queue + Message(e)
  {
    StepConsistent(q, e);
    hide Messages, WrittenOf;
    assert e.Enqueue?;
  }

  /** Once a write has failed, no run starts or completes another: the failed
      message stays in front. */
  lemma {:induction false} NothingAfterFailure<T>(q: Queue<T>, run: seq<Event<T>>)
    requires Consistent(q) && q.failed && Legal(q, run)
    ensures var r := Run(q, run);
      && r.started == q.started && r.departed == q.departed && !r.writing && r.failed
      && r.queue == q.queue + Sent(run)
    decreases |run|
  {
    if run == [] {
      hide Messages, WrittenOf;
      assert q.queue + [] == q.queue;
    } else {
      hide Consistent, Step;
      FailedStep(q, run[0]);
      NothingAfterFailure(Step(q, run[0]), run[1..]);
      Assoc(q.queue, Message(run[0]), Sent(run[1..]));
    }
  }

  lemma {:induction false} RunAppend<T>(q: Queue<T>, a: seq<Event<T>>, b: seq<Event<T>>)
    requires Legal(q, a + b)
    ensures Legal(q, a) && Legal(Run(q, a), b) && Run(q, a + b) == Run(Run(q, a), b)
    decreases |a|
  {
    hide Step, Enabled;
    if a == [] {
      assert a + b == b;
    } else {
      assert (a + b)[0] == a[0] && (a + b)[1..] == a[1..] + b;
      RunAppend(Step(q, a[0]), a[1..], b);
    }
  }

  lemma FailStep<T>(q: Queue<T>)
    requires Consistent(q) && q.writing
    ensures var r := Step(q, Failure);
      r.failed && !r.writing && r.queue == q.queue && r.started == q.started && r.departed == q.departed
  {
    hide Messages, WrittenOf;
  }

  /** From the start, whatever comes before and after: once a write fails nothing is
      written, dropped or started any more, and what is sent only waits. */
  lemma FailureIsFinal<T>(max: Bound, before: seq<Event<T>>, rest: seq<Event<T>>)
    requires (max.AtMost? ==> max.n >= 1) && Legal(Empty(max), before + ([Failure] + rest))
    ensures var q, r := Run(Empty<T>(max), before), Run(Empty<T>(max), before + ([Failure] + rest));
      && !r.writing && r.started == q.started && r.departed == q.departed && r.queue == q.queue + Sent(rest)
  {
    hide Consistent, Empty;
    EmptyKept<T>(max);
    RunAppend(Empty<T>(max), before, [Failure] + rest);
    RunConsistent(Empty<T>(max), before);
    var q := Run(Empty<T>(max), before);
    assert ([Failure] + rest)[0] == Failure && ([Failure] + rest)[1..] == rest;
    assert Legal(q, [Failure] + rest) && q.writing;
    FailStep(q);
    StepConsistent(q, Failure);
    hide Step;
    NothingAfterFailure(Step(q, Failure), rest);
  }

  // ------------------------------------------------ the session and the client

  ghost predicate NoFailure<T>(run: seq<Event<T>>) {
    forall i :: 0 <= i < |run| ==> !run[i].Failure?
  }

  /** No completion of the run finds more than max messages waiting. */
  predicate NeverOver<T>(q: Queue<T>, run: seq<Event<T>>)
    decreases |run|
  {
    run == [] ||
    ((run[0].Completion? && q.queue != [] ==> Excess(q.max, |q.queue| - 1) == 0)
     && NeverOver(Step(q, run[0]), run[1..]))
  }

  /** q, bounded, and c, unbounded, have been sent the same, c behind by what q dropped. */
  ghost predicate Behind<T>(q: Queue<T>, c: Queue<T>) {
    && Consistent(q) && Consistent(c) && !q.failed && !c.failed
    && c.max == Unbounded && c.enqueued == q.enqueued && |q.queue| <= |c.queue|
  }

  function Over<T>(q: Queue<T>, e: Event<T>): nat {
    if e.Completion? && q.queue != [] then Excess(q.max, |q.queue| - 1) else 0
  }

  lemma BehindStep<T>(q: Queue<T>, c: Queue<T>, e: Event<T>)
    requires Behind(q, c) && Enabled(q, e) && !e.Failure?
    ensures Enabled(c, e) && Behind(Step(q, e), Step(c, e))
    ensures |Step(c, e).queue| - |Step(q, e).queue| == |c.queue| - |q.queue| + Over(q, e)
  {
    BehindWrites(q, c);
    StepConsistent(q, e);
    StepConsistent(c, e);
    hide Consistent, Cut;
    if e.Completion? {
      WriteDoneFields(q);
      WriteDoneFields(c);
      hide WriteDone;
    }
  }

  lemma BehindWrites<T>(q: Queue<T>, c: Queue<T>)
    requires Behind(q, c)
    ensures q.writing ==> c.writing && q.queue != [] && c.queue != []
  {
    hide Messages, WrittenOf;
  }

  lemma {:induction false} BehindRun<T>(q: Queue<T>, c: Queue<T>, run: seq<Event<T>>)
    requires Behind(q, c) && Legal(q, run) && NoFailure(run)
    ensures Legal(c, run)
    ensures var q', c' := Run(q, run), Run(c, run);
      && Behind(q', c')
      && |c'.queue| - |q'.queue| >= |c.queue| - |q.queue|
      && (|c'.queue| - |q'.queue| == |c.queue| - |q.queue| <==> NeverOver(q, run))
    decreases |run|
  {
    hide Behind, Step, Enabled;
    if run == [] {
    } else {
      var e := run[0];
      BehindStep(q, c, e);
      assert forall i :: 0 <= i < |run[1..]| ==> run[1..][i] == run[i + 1];
      BehindRun(Step(q, e), Step(c, e), run[1..]);
    }
  }

  lemma StepDrops<T>(q: Queue<T>, e: Event<T>)
    requires Consistent(q) && Enabled(q, e)
    ensures var over := if e.Completion? then Excess(q.max, |q.queue| - 1) else 0;
      |DroppedOf(Step(q, e).departed)| == |DroppedOf(q.departed)| + over
  {
    hide DroppedOf;
    if e.Completion? {
      WriteDoneFields(q);
      WriteDoneEffect(q);
    }
  }

  /** From any consistent queue, along any legal run, failures included: nothing is
      dropped exactly when no completion finds more than max messages waiting. */
  lemma {:induction false} DropsNothing<T>(q: Queue<T>, run: seq<Event<T>>)
    requires Consistent(q) && Legal(q, run)
    ensures |DroppedOf(Run(q, run).departed)| >= |DroppedOf(q.departed)|
    ensures |DroppedOf(Run(q, run).departed)| == |DroppedOf(q.departed)| <==> NeverOver(q, run)
    decreases |run|
  {
    if run == [] {
    } else {
      StepConsistent(q, run[0]);
      StepDrops(q, run[0]);
      hide DroppedOf, Consistent, Step;
      DropsNothing(Step(q, run[0]), run[1..]);
    }
  }

  lemma {:induction false} NothingDropped<T>(d: seq<Departed<T>>)
    requires DroppedOf(d) == []
    ensures Messages(d) == WrittenOf(d)
    decreases |d|
  {
    if d == [] {
    } else {
      NothingDropped(d[..|d| - 1]);
    }
  }

  lemma {:induction false} UnboundedNeverOver<T>(c: Queue<T>, run: seq<Event<T>>)
    requires c.max == Unbounded
    ensures NeverOver(c, run)
    decreases |run|
  {
    if run == [] {
    } else {
      UnboundedNeverOver(Step(c, run[0]), run[1..]);
    }
  }

  /** Written and queued make up everything sent, in order. */
  lemma ClientLossless<T>(run: seq<Event<T>>)
    requires Legal(Empty(Unbounded), run)
    ensures var r := Run(Empty(Unbounded), run); WrittenBy(r) + r.queue == Sent(run)
  {
    Conservation(Unbounded, run);
    EmptyConsistent<T>(Unbounded);
    UnboundedNeverOver(Empty<T>(Unbounded), run);
    DropsNothing(Empty(Unbounded), run);
    NothingDropped(Run(Empty(Unbounded), run).departed);
  }

  /** On an error-free run of the session the client can take the same steps, and
      both end up with the same queue exactly when no completion found more than
      max messages waiting; then the same messages were handed to async_write. */
  lemma SessionLikeClient<T>(max: nat, run: seq<Event<T>>)
    requires max >= 1 && Legal(Empty(AtMost(max)), run) && NoFailure(run)
    ensures Legal(Empty(Unbounded), run)
    ensures var s, c := Run(Empty(AtMost(max)), run), Run(Empty(Unbounded), run);
      && (s.queue == c.queue <==> NeverOver(Empty(AtMost(max)), run))
      && (NeverOver(Empty(AtMost(max)), run) ==> s.started == c.started && s.departed == c.departed)
  {
    EmptyConsistent<T>(AtMost(max));
    EmptyConsistent<T>(Unbounded);
    BehindRun(Empty<T>(AtMost(max)), Empty<T>(Unbounded), run);
    var s, c := Run(Empty(AtMost(max)), run), Run(Empty(Unbounded), run);
    if |s.queue| == |c.queue| {
      SameSplit(Messages(s.departed), s.queue, Messages(c.departed), c.queue);
      UnboundedNeverOver(Empty<T>(Unbounded), run);
      DropsNothing(Empty(Unbounded), run);
      DropsNothing(Empty(AtMost(max)), run);
      AllWritten(s.departed, c.departed);
    }
  }

  lemma {:induction false} AllWritten<T>(d: seq<Departed<T>>, e: seq<Departed<T>>)
    requires DroppedOf(d) == [] && DroppedOf(e) == [] && Messages(d) == Messages(e)
    ensures d == e
    decreases |d|
  {
    if d == [] {
    } else {
      var m, n := |d| - 1, |e| - 1;
      assert Messages(d)[..|Messages(d)| - 1] == Messages(d[..m]);
      assert Messages(e)[..|Messages(e)| - 1] == Messages(e[..n]);
      assert d[m].msg == e[n].msg && d[m].Written? && e[n].Written?;
      AllWritten(d[..m], e[..n]);
      assert d == d[..m] + [d[m]] && e == e[..n] + [e[n]];
    }
  }

  lemma SameSplit<T>(a: seq<T>, b: seq<T>, c: seq<T>, d: seq<T>)
    requires a + b == c + d && |b| == |d|
    ensures a == c && b == d
  {
    assert a == (a + b)[..|a|] && b == (a + b)[|a|..];
    assert c == (c + d)[..|c|] && d == (c + d)[|c|..];
  }

  // -------------------------------------------------------------- running code

  class WsSession<T> {
    var sendQueue: seq<T>
    const sendQueueMaxSize: nat
    /** The message async_write has been given and not yet answered for. */
    var outstanding: Option<T>
    ghost var model: Queue<T>

    ghost predicate Valid()
      reads this
    {
      && Consistent(model)
      && model.queue == sendQueue && model.max == AtMost(sendQueueMaxSize)
      && outstanding == if model.writing then Some(sendQueue[0]) else None
    }

    constructor (configured: int)
      ensures Valid() && model == Empty(SessionBound(configured)) && sendQueue == [] && outstanding.None?
      ensures 1 <= configured < 0x1_0000_0000_0000_0000 ==> sendQueueMaxSize == configured
      ensures configured == 0 ==> sendQueueMaxSize == 1
      ensures -0x8000_0000 <= configured < 0 ==> sendQueueMaxSize == configured + 0x1_0000_0000_0000_0000
    {
      var n := configured % 0x1_0000_0000_0000_0000;
      sendQueueMaxSize := if n <= 0 then 1 else n;
      sendQueue, outstanding := [], None;
      model := Empty(SessionBound(configured));
    }

    /** A WebSocket stream takes one write at a time. */
    method DoWrite(data: T)
      requires outstanding.None?
      modifies this`outstanding
      ensures outstanding == Some(data)
    {
      outstanding := Some(data);
    }

    method DoSend(data: T)
      requires Valid()
      modifies this
      ensures Valid() && model == Send(old(model), data)
      ensures sendQueue == old(sendQueue) + [data]
      ensures outstanding == if old(sendQueue) == [] then Some(data) else old(outstanding)
    {
      SendConsistent(model, data);
      model := Send(model, data);
      sendQueue := sendQueue + [data];
      if |sendQueue| > 1 {
        return;
      }
      DoWrite(sendQueue[0]);
    }

    /** The answer to the outstanding write. */
    method OnWrite(failed: bool)
      requires Valid() && outstanding.Some?
      modifies this
      ensures Valid() && model == if failed then WriteFail(old(model)) else WriteDone(old(model))
      ensures failed ==> sendQueue == old(sendQueue) && outstanding.None?
      ensures !failed ==>
                var n, waiting := |old(sendQueue)|, |old(sendQueue)| - 1;
                && sendQueue == old(sendQueue)[n - Min(sendQueueMaxSize, waiting)..]
                && outstanding == if sendQueue == [] then None else Some(sendQueue[0])
    {
      outstanding := None;
      if failed {
        WriteFailConsistent(model);
        model := WriteFail(model);
        return;
      }
      WriteDoneConsistent(model);
      model := WriteDone(model);
      sendQueue := sendQueue[1..];
      if sendQueueMaxSize > 0 && |sendQueue| > sendQueueMaxSize {
        sendQueue := sendQueue[|sendQueue| - sendQueueMaxSize..];
      }
      if sendQueue != [] {
        DoWrite(sendQueue[0]);
      }
    }
  }

  class WsClient<T> {
    var sendQueue: seq<T>
    var outstanding: Option<T>
    ghost var model: Queue<T>

    ghost predicate Valid()
      reads this
    {
      && Consistent(model)
      && model.queue == sendQueue && model.max == Unbounded
      && outstanding == if model.writing then Some(sendQueue[0]) else None
    }

    constructor ()
      ensures Valid() && model == Empty(Unbounded)
    {
      sendQueue, outstanding, model := [], None, Empty(Unbounded);
    }

    method DoWrite(data: T)
      requires outstanding.None?
      modifies this`outstanding
      ensures outstanding == Some(data)
    {
      outstanding := Some(data);
    }

    method DoSend(data: T)
      requires Valid()
      modifies this
      ensures Valid() && model == Send(old(model), data)
      ensures sendQueue == old(sendQueue) + [data]
      ensures outstanding == if old(sendQueue) == [] then Some(data) else old(outstanding)
    {
      SendConsistent(model, data);
      model := Send(model, data);
      sendQueue := sendQueue + [data];
      if |sendQueue| > 1 {
        return;
      }
      DoWrite(sendQueue[0]);
    }

    method OnWrite(failed: bool)
      requires Valid() && outstanding.Some?
      modifies this
      ensures Valid() && model == if failed then WriteFail(old(model)) else WriteDone(old(model))
      ensures failed ==> sendQueue == old(sendQueue) && outstanding.None?
      ensures !failed ==>
                && sendQueue == old(sendQueue)[1..]
                && outstanding == if sendQueue == [] then None else Some(sendQueue[0])
    {
      outstanding := None;
      if failed {
        WriteFailConsistent(model);
        model := WriteFail(model);
        return;
      }
      WriteDoneConsistent(model);
      model := WriteDone(model);
      sendQueue := sendQueue[1..];
      if sendQueue != [] {
        DoWrite(sendQueue[0]);
      }
    }
  }
}
