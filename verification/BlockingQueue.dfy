/**
 The bounded queue that drops its oldest element (common/util/blocking_queue.h),
 seen through the members that take the lock.
 */
module BlockingQueues {
  import opened Options
  import opened Sequences

  /** How an element left the queue. */
  datatype Fate = Taken | Dropped | Cleared

  datatype Gone<T> = Gone(value: T, fate: Fate)

  /** gone: what has left the queue, in order; not part of the class. */
  datatype Queue<T> = Queue(max: nat, items: seq<T>, dropped: Option<T>, gone: seq<Gone<T>>)

  datatype Op<T> =
    | Put(value: T)
    | Take          // Take once an element is there, or TryTake
    | TakeAll       // TakeAll once an element is there, or MoveAll
    | Clear

  function All<T>(items: seq<T>, fate: Fate): (r: seq<Gone<T>>)
    ensures |r| == |items| && forall i :: 0 <= i < |r| ==> r[i] == Gone(items[i], fate)
  {
    seq(|items|, i requires 0 <= i < |items| => Gone(items[i], fate))
  }

  function Do<T>(q: Queue<T>, op: Op<T>): Queue<T> {
    match op
    case Put(value) =>
      var items := q.items + [value];
      if q.max > 0 && |items| > q.max then
        Queue(q.max, items[1..], Some(items[0]), q.gone + [Gone(items[0], Dropped)])
      else q.(items := items)
    case Take =>
      if q.items == [] then q
      else q.(items := q.items[1..], gone := q.gone + [Gone(q.items[0], Taken)])
    case TakeAll => q.(items := [], gone := q.gone + All(q.items, Taken))
    case Clear => q.(items := [], gone := q.gone + All(q.items, Cleared))
  }

  function DoAll<T>(q: Queue<T>, ops: seq<Op<T>>): Queue<T> {
    if ops == [] then q else Do(DoAll(q, ops[..|ops| - 1]), ops[|ops| - 1])
  }

  function Puts<T>(ops: seq<Op<T>>): seq<T> {
    if ops == [] then []
    else
      Puts(ops[..|ops| - 1]) + In(ops[|ops| - 1])
  }

  function Values<T>(gone: seq<Gone<T>>): (r: seq<T>)
    ensures |r| == |gone| && forall i :: 0 <= i < |r| ==> r[i] == gone[i].value
  {
    seq(|gone|, i requires 0 <= i < |gone| => gone[i].value)
  }

  function Empty<T>(max: nat): Queue<T> {
    Queue(max, [], None, [])
  }

  /** The last element whose fate was to be dropped. */
  function LastDropped<T>(gone: seq<Gone<T>>): Option<T> {
    if gone == [] then None
    else if gone[|gone| - 1].fate.Dropped? then Some(gone[|gone| - 1].value)
    else LastDropped(gone[..|gone| - 1])
  }

  // ------------------------------------------------------------- what is promised

  lemma ValuesAppend<T>(a: seq<Gone<T>>, b: seq<Gone<T>>)
    ensures Values(a + b) == Values(a) + Values(b)
  {}

  lemma {:induction false} LastDroppedSkips<T>(a: seq<Gone<T>>, b: seq<Gone<T>>)
    requires forall i :: 0 <= i < |b| ==> !b[i].fate.Dropped?
    ensures LastDropped(a + b) == LastDropped(a)
    decreases |b|
  {
    if b == [] {
      assert a + b == a;
    } else {
      assert (a + b)[..|a + b| - 1] == a + b[..|b| - 1];
      LastDroppedSkips(a, b[..|b| - 1]);
    }
  }

  /** What an operation takes off the front of the queue, and how. */
  function Out<T>(q: Queue<T>, op: Op<T>): seq<Gone<T>> {
    match op
    case Put(value) =>
      if q.max > 0 && |q.items| + 1 > q.max then All((q.items + [value])[..1], Dropped) else []
    case Take => if q.items == [] then [] else All(q.items[..1], Taken)
    case TakeAll => All(q.items, Taken)
    case Clear => All(q.items, Cleared)
  }

  function In<T>(op: Op<T>): seq<T> {
    if op.Put? then [op.value] else []
  }

  lemma ValuesOfAll<T>(items: seq<T>, fate: Fate)
    ensures Values(All(items, fate)) == items
  {}

  lemma OneGone<T>(x: T, fate: Fate)
    ensures All([x], fate) == [Gone(x, fate)]
  {}

  /** A split of a sequence after its first n elements, in the forms Do uses. */
  lemma Split<T>(items: seq<T>, n: nat)
    requires n <= |items|
    ensures items[..n] + items[n..] == items && items[..0] == [] && items[|items|..] == [] && items[..|items|] == items
    ensures items != [] ==> items[..1] == [items[0]]
  {}

  lemma OutOfPut<T>(q: Queue<T>, value: T)
    ensures Do(q, Put(value)).gone == q.gone + Out(q, Put(value))
    ensures Values(Out(q, Put(value))) + Do(q, Put(value)).items == q.items + [value]
  {
    hide Values, All;
    var items := q.items + [value];
    Split(items, 1);
    OneGone(items[0], Dropped);
    ValuesOfAll(items[..1], Dropped);
    ValuesOfAll<T>([], Dropped);
    NoneGone<T>(Dropped);
  }

  lemma NoneGone<T>(fate: Fate)
    ensures All<T>([], fate) == []
  {}

  lemma OutOfTake<T>(q: Queue<T>)
    ensures Do(q, Take).gone == q.gone + Out(q, Take)
    ensures Values(Out(q, Take)) + Do(q, Take).items == q.items
  {
    hide Values, All;
    NoneGone<T>(Taken);
    ValuesOfAll<T>([], Taken);
    if q.items != [] {
      Split(q.items, 1);
      OneGone(q.items[0], Taken);
      ValuesOfAll(q.items[..1], Taken);
    }
  }

  lemma OutLeaves<T>(q: Queue<T>, op: Op<T>)
    ensures Do(q, op).gone == q.gone + Out(q, op)
    ensures Values(Out(q, op)) + Do(q, op).items == q.items + In(op)
  {
    hide Values, All;
    assert q.items + [] == q.items;
    match op
    case Put(value) => OutOfPut(q, value);
    case Take => OutOfTake(q);
    case TakeAll => ValuesOfAll(q.items, Taken);
    case Clear => ValuesOfAll(q.items, Cleared);
  }

  lemma LastDroppedIs<T>(a: seq<Gone<T>>, g: Gone<T>)
    requires g.fate.Dropped?
    ensures LastDropped(a + [g]) == Some(g.value)
  {}

  lemma DroppedStep<T>(q: Queue<T>, op: Op<T>)
    requires q.dropped == LastDropped(q.gone)
    ensures Do(q, op).dropped == LastDropped(Do(q, op).gone)
  {
    hide LastDropped;
    match op
    case Put(value) => LastDroppedIs(q.gone, Gone((q.items + [value])[0], Dropped));
    case Take => if q.items != [] { LastDroppedSkips(q.gone, [Gone(q.items[0], Taken)]); }
    case TakeAll => LastDroppedSkips(q.gone, All(q.items, Taken));
    case Clear => LastDroppedSkips(q.gone, All(q.items, Cleared));
  }

  /** What has left, followed by what is queued, only grows, at its end. */
  lemma GrowsAtTheEnd<T>(q: Queue<T>, op: Op<T>)
    ensures Values(Do(q, op).gone) + Do(q, op).items == Values(q.gone) + q.items + In(op)
  {
    hide Values, Do, Out, In;
    OutLeaves(q, op);
    ValuesAppend(q.gone, Out(q, op));
    Assoc(Values(q.gone), Values(Out(q, op)), Do(q, op).items);
    Assoc(Values(q.gone), q.items, In(op));
  }

  lemma BoundAndDropped<T>(q: Queue<T>, op: Op<T>)
    requires q.max > 0 ==> |q.items| <= q.max
    requires q.dropped == LastDropped(q.gone)
    ensures var r := Do(q, op);
            r.max == q.max && (r.max > 0 ==> |r.items| <= r.max) && r.dropped == LastDropped(r.gone)
  {
    hide Values, LastDropped, Out;
    DroppedStep(q, op);
  }

  /** After any operations on a new queue: everything put is, in the order it was
      put, what has left in that order and then what is queued.  So whatever was
      dropped is older than whatever is queued.  The size keeps its bound, and
      dropped_ is the last element dropped. */
  lemma {:induction false} History<T>(max: nat, ops: seq<Op<T>>)
    ensures var q := DoAll(Empty(max), ops);
            && Values(q.gone) + q.items == Puts(ops)
            && q.max == max && (max > 0 ==> |q.items| <= max)
            && q.dropped == LastDropped(q.gone)
    decreases |ops|
  {
    if ops == [] {
      assert Values<T>([]) == [];
    } else {
      var n := |ops| - 1;
      History(max, ops[..n]);
      hide Do, Values, LastDropped;
      GrowsAtTheEnd(DoAll(Empty(max), ops[..n]), ops[n]);
      BoundAndDropped(DoAll(Empty(max), ops[..n]), ops[n]);
    }
  }

  function TakenOf<T>(gone: seq<Gone<T>>): seq<T> {
    if gone == [] then []
    else
      var g := gone[|gone| - 1];
      TakenOf(gone[..|gone| - 1]) + (if g.fate.Taken? then [g.value] else [])
  }

  ghost predicate AllTaken<T>(gone: seq<Gone<T>>) {
    forall i :: 0 <= i < |gone| ==> gone[i].fate.Taken?
  }

  lemma {:induction false} TakenIsAll<T>(gone: seq<Gone<T>>)
    ensures |TakenOf(gone)| <= |gone|
    ensures |TakenOf(gone)| == |gone| <==> AllTaken(gone)
    ensures AllTaken(gone) ==> TakenOf(gone) == Values(gone)
    decreases |gone|
  {
    if gone == [] {
    } else {
      TakenIsAll(gone[..|gone| - 1]);
    }
  }

  /** The queue is a lossless first-in first-out queue exactly as long as nothing
      was dropped or cleared. */
  lemma LosslessIff<T>(max: nat, ops: seq<Op<T>>)
    ensures var q := DoAll(Empty(max), ops);
            TakenOf(q.gone) + q.items == Puts(ops) <==> AllTaken(q.gone)
  {
    History(max, ops);
    var q := DoAll(Empty(max), ops);
    hide DoAll, Puts;
    TakenIsAll(q.gone);
    if TakenOf(q.gone) + q.items == Puts(ops) {
      assert |TakenOf(q.gone) + q.items| == |Values(q.gone) + q.items|;
    }
  }

  lemma {:induction false} TakenIsSubsequence<T>(gone: seq<Gone<T>>)
    ensures Subsequence(TakenOf(gone), Values(gone))
    decreases |gone|
  {
    hide Subsequence;
    if gone == [] {
      NothingTaken<T>();
    } else {
      var n := |gone| - 1;
      TakenIsSubsequence(gone[..n]);
      assert Values(gone) == Values(gone[..n]) + [gone[n].value];
      SubsequenceOne(TakenOf(gone[..n]), Values(gone[..n]), gone[n].value);
      assert TakenOf(gone[..n]) + [] == TakenOf(gone[..n]);
    }
  }

  lemma NothingTaken<T>()
    ensures Subsequence(TakenOf<T>([]), Values([]))
  {}

  /** What was taken, followed by what is queued, is what was put with some elements
      left out: nothing is taken twice, made up, or taken out of order. */
  lemma TakenThenQueued<T>(max: nat, ops: seq<Op<T>>)
    ensures var q := DoAll(Empty(max), ops); Subsequence(TakenOf(q.gone) + q.items, Puts(ops))
  {
    hide Subsequence, DoAll, Puts, Values;
    var q := DoAll(Empty(max), ops);
    History(max, ops);
    TakenIsSubsequence(q.gone);
    SubsequenceAppend(TakenOf(q.gone), Values(q.gone), q.items);
  }

  ghost predicate NoneDropped<T>(gone: seq<Gone<T>>) {
    forall i :: 0 <= i < |gone| ==> !gone[i].fate.Dropped?
  }

  /** A queue without a bound never drops. */
  lemma {:induction false} UnboundedNeverDrops<T>(ops: seq<Op<T>>)
    ensures var q := DoAll(Empty<T>(0), ops); q.max == 0 && NoneDropped(q.gone)
    decreases |ops|
  {
    if ops == [] {
    } else {
      UnboundedNeverDrops(ops[..|ops| - 1]);
    }
  }

  function Newest<T>(puts: seq<T>, max: nat): seq<T> {
    if |puts| > max then puts[|puts| - max..] else puts
  }

  lemma PutKeepsNewest<T>(q: Queue<T>, puts: seq<T>, value: T)
    requires q.max > 0 && q.items == Newest(puts, q.max)
    ensures Do(q, Put(value)).items == Newest(puts + [value], q.max)
  {
    var k := |puts| - |q.items|;
    assert q.items == puts[k..];
    assert (puts + [value])[k..] == puts[k..] + [value];
  }

  /** Putting values one by one into a new queue with a bound leaves the newest. */
  lemma {:induction false} KeepsTheNewest<T>(max: nat, ops: seq<Op<T>>)
    requires max > 0 && forall i :: 0 <= i < |ops| ==> ops[i].Put?
    ensures DoAll(Empty(max), ops).items == Newest(Puts(ops), max)
    ensures DoAll(Empty<T>(max), ops).max == max
    decreases |ops|
  {
    if ops != [] {
      var n := |ops| - 1;
      KeepsTheNewest(max, ops[..n]);
      var q := DoAll(Empty(max), ops[..n]);
      hide Newest;
      PutKeepsNewest(q, Puts(ops[..n]), ops[n].value);
      assert Do(q, ops[n]).max == q.max;
    } else {
      assert Puts(ops) == [];
    }
  }

  // ------------------------------------------------------------------ the class

  class BlockingQueue<T> {
    var queue: seq<T>
    const maxSize: nat
    var dropped: Option<T>
    ghost var gone: seq<Gone<T>>

    ghost function Value(): Queue<T>
      reads this
    {
      Queue(maxSize, queue, dropped, gone)
    }

    constructor (maxSize: nat)
      ensures Value() == Empty(maxSize)
    {
      this.maxSize, queue, dropped, gone := maxSize, [], None, [];
    }

    /** result: an element was dropped to make room. */
    method Put(t: T) returns (result: bool)
      modifies this
      ensures Value() == Do(old(Value()), Op.Put(t))
      ensures result <==> Value().gone != old(gone)
      ensures result ==> exists d :: gone == old(gone) + [Gone(d, Dropped)] && dropped == Some(d)
      ensures result <==> 0 < maxSize <= |old(queue)|
      ensures queue == if result then (old(queue) + [t])[1..] else old(queue) + [t]
    {
      queue := queue + [t];
      result := FixMaxSize();
    }

    method FixMaxSize() returns (result: bool)
      modifies this
      ensures result == (maxSize > 0 && |old(queue)| > maxSize)
      ensures result ==> queue == old(queue)[1..] && dropped == Some(old(queue)[0])
                         && gone == old(gone) + [Gone(old(queue)[0], Dropped)]
      ensures !result ==> Value() == old(Value())
    {
      if maxSize > 0 && |queue| > maxSize {
        dropped := Some(queue[0]);
        gone := gone + [Gone(queue[0], Dropped)];
        queue := queue[1..];
        return true;
      } else {
        return false;
      }
    }

    /** Take, when the wait is over. */
    method Take() returns (t: T)
      requires queue != []
      modifies this
      ensures Value() == Do(old(Value()), Op.Take) && old(queue) == [t] + queue
    {
      t := queue[0];
      gone := gone + [Gone(t, Taken)];
      queue := queue[1..];
    }

    method TryTake() returns (t: Option<T>)
      modifies this
      ensures Value() == Do(old(Value()), Op.Take)
      ensures t.None? <==> old(queue) == []
      ensures t.Some? ==> old(queue) == [t.value] + queue
    {
      if queue == [] {
        return None;
      }
      t := Some(queue[0]);
      gone := gone + [Gone(queue[0], Taken)];
      queue := queue[1..];
    }

    method TryPeek() returns (t: Option<T>)
      ensures t.None? <==> queue == []
      ensures t.Some? ==> t.value == queue[0]
    {
      if queue == [] {
        return None;
      }
      return Some(queue[0]);
    }

    /** TakeAll when the wait is over, and MoveAll: the elements move out. */
    method MoveAll() returns (all: seq<T>)
      modifies this
      ensures Value() == Do(old(Value()), Op.TakeAll) && all == old(queue) && queue == []
    {
      all := queue;
      gone := gone + All(queue, Taken);
      queue := [];
    }

    method Clear()
      modifies this
      ensures Value() == Do(old(Value()), Op.Clear) && queue == []
    {
      gone := gone + All(queue, Cleared);
      queue := [];
    }
  }
}
