/**
 The filter chain of a stream handler (rtsp-ws-proxy/stream_handler.cc).

 `Chain` is the reference: every stage consumes the whole list the stage before
 it produced.  The class `StreamHandler` runs the recursion of the source, in
 which all nested levels share one receive packet as both output and input.
 */
module FilterChain {
  import opened Options

  datatype FilterStatus = OK | AGAIN | BREAK

  /** What is in a packet object; None: blank, as av_packet_unref leaves it. */
  type Content<P> = Option<P>

  datatype Sent<S> = Sent(status: FilterStatus, state: S)
  datatype Received<S, P> = Received(status: FilterStatus, state: S, content: Content<P>)

  /** A filter as its two entry points on an abstract state.  The ranks bound how
      often an entry point can go on answering AGAIN. */
  datatype EntryPoints<!S(!new), !P(!new)> = EntryPoints(
    send: (S, Content<P>) -> Sent<S>,
    recv: S -> Received<S, P>,
    sendRank: S -> nat,
    recvRank: S -> nat)

  /** The stage holds finitely much: AGAIN cannot be answered for ever. */
  ghost predicate FiniteStage<S(!new), P(!new)>(g: EntryPoints<S, P>) {
    && (forall s: S, c: Content<P> ::
          g.send(s, c).status == AGAIN ==> g.sendRank(g.send(s, c).state) < g.sendRank(s))
    && (forall s: S :: g.recv(s).status == AGAIN ==> g.recvRank(g.recv(s).state) < g.recvRank(s))
  }

  type Stage<!S(!new), !P(!new)> = g: EntryPoints<S, P> | FiniteStage(g)
    ghost witness EntryPoints((s, c) => Sent(OK, s), s => Received(BREAK, s, None), s => 0, s => 0)

  // ------------------------------------------------- the reference composition

  /** A stage in a state. */
  datatype Node<!S(!new), !P(!new)> = Node(stage: Stage<S, P>, state: S)

  /** Sending until the answer is not AGAIN.  The packet is blanked after the
      first attempt, so a second attempt sends a blank one. */
  ghost function SendAll<S(!new), P(!new)>(n: Node<S, P>, c: Content<P>): (r: Sent<S>)
    decreases n.stage.sendRank(n.state)
  {
    var r := n.stage.send(n.state, c);
    if r.status == AGAIN then SendAll(n.(state := r.state), None) else r
  }

  datatype Produced<S, P> = Produced(out: seq<Content<P>>, state: S)

  /** Everything a stage gives back before it stops answering AGAIN. */
  ghost function Drain<S(!new), P(!new)>(n: Node<S, P>): Produced<S, P>
    decreases n.stage.recvRank(n.state)
  {
    var r := n.stage.recv(n.state);
    match r.status
    case BREAK => Produced([], r.state)
    case OK => Produced([r.content], r.state)
    case AGAIN =>
      var rest := Drain(n.(state := r.state));
      Produced([r.content] + rest.out, rest.state)
  }

  /** One packet through one stage. */
  ghost function Feed<S(!new), P(!new)>(n: Node<S, P>, c: Content<P>): Produced<S, P>
  {
    var s := SendAll(n, c);
    if s.status == BREAK then Produced([], s.state) else Drain(n.(state := s.state))
  }

  /** A list of packets through one stage. */
  ghost function FeedAll<S(!new), P(!new)>(n: Node<S, P>, cs: seq<Content<P>>): Produced<S, P>
    decreases |cs|
  {
    if cs == [] then Produced([], n.state)
    else
      var first := Feed(n, cs[0]);
      var rest := FeedAll(n.(state := first.state), cs[1..]);
      Produced(first.out + rest.out, rest.state)
  }

  datatype Chained<!S(!new), !P(!new)> = Chained(out: seq<Content<P>>, nodes: seq<Node<S, P>>)

  /** The composition of the stages as list transducers. */
  ghost function Chain<S(!new), P(!new)>(nodes: seq<Node<S, P>>, cs: seq<Content<P>>): (r: Chained<S, P>)
    ensures |r.nodes| == |nodes|
    ensures forall i :: 0 <= i < |nodes| ==> r.nodes[i].stage == nodes[i].stage
    decreases |nodes|
  {
    if nodes == [] then Chained(cs, [])
    else
      var p := FeedAll(nodes[0], cs);
      var rest := Chain(nodes[1..], p.out);
      Chained(rest.out, [nodes[0].(state := p.state)] + rest.nodes)
  }

  lemma {:induction false} FeedAllAppend<S(!new), P(!new)>(n: Node<S, P>, xs: seq<Content<P>>, ys: seq<Content<P>>)
    ensures var a := FeedAll(n, xs);
      var b := FeedAll(n.(state := a.state), ys);
      FeedAll(n, xs + ys) == Produced(a.out + b.out, b.state)
    decreases |xs|
  {
    if xs == [] {
      assert xs + ys == ys;
    } else {
      var first := Feed(n, xs[0]);
      assert (xs + ys)[0] == xs[0] && (xs + ys)[1..] == xs[1..] + ys;
      FeedAllAppend(n.(state := first.state), xs[1..], ys);
    }
  }

  /** Processing one list after another is processing them joined: a stage's
      state is all it remembers. */
  lemma {:induction false} ChainAppend<S(!new), P(!new)>(nodes: seq<Node<S, P>>, xs: seq<Content<P>>, ys: seq<Content<P>>)
    ensures var a := Chain(nodes, xs);
      var b := Chain(a.nodes, ys);
      Chain(nodes, xs + ys) == Chained(a.out + b.out, b.nodes)
    decreases |nodes|
  {
    if nodes == [] {
    } else {
      var n, rest := nodes[0], nodes[1..];
      FeedAllAppend(n, xs, ys);
      var p := FeedAll(n, xs);
      var q := FeedAll(n.(state := p.state), ys);
      ChainAppend(rest, p.out, q.out);
      var a := Chain(nodes, xs);
      assert a.nodes[0] == n.(state := p.state) && a.nodes[1..] == Chain(rest, p.out).nodes;
    }
  }

  lemma {:induction false} ChainNothing<S(!new), P(!new)>(nodes: seq<Node<S, P>>)
    ensures Chain(nodes, []) == Chained([], nodes)
    decreases |nodes|
  {
    if nodes == [] {
    } else {
      ChainNothing(nodes[1..]);
      assert nodes == [nodes[0]] + nodes[1..];
    }
  }

  /** One packet into a chain: through the first stage, what comes out through the rest. */
  lemma ChainOne<S(!new), P(!new)>(nodes: seq<Node<S, P>>, c: Content<P>)
    requires nodes != []
    ensures var p := Feed(nodes[0], c);
      var r := Chain(nodes[1..], p.out);
      Chain(nodes, [c]) == Chained(r.out, [nodes[0].(state := p.state)] + r.nodes)
  {
    var first := Feed(nodes[0], c);
    assert first.out + [] == first.out;
    assert FeedAll(nodes[0].(state := first.state), []) == Produced([], first.state);
    assert [c][1..] == [];
    assert FeedAll(nodes[0], [c]) == first;
  }

  /** How far a drain has come: `out` is out; after AGAIN the rest is still to come. */
  ghost predicate Draining<S(!new), P(!new)>(total: Produced<S, P>, out: seq<Content<P>>, status: FilterStatus, n: Node<S, P>)
  {
    total == if status == AGAIN
             then var d := Drain(n); Produced(out + d.out, d.state)
             else Produced(out, n.state)
  }

  lemma DrainStart<S(!new), P(!new)>(n: Node<S, P>)
    ensures Draining(Drain(n), [], AGAIN, n)
  {
    assert [] + Drain(n).out == Drain(n).out;
  }

  lemma DrainDone<S(!new), P(!new)>(total: Produced<S, P>, out: seq<Content<P>>, status: FilterStatus, n: Node<S, P>)
    requires Draining(total, out, status, n) && status != AGAIN
    ensures total == Produced(out, n.state)
  {}

  lemma DrainOne<S(!new), P(!new)>(total: Produced<S, P>, out: seq<Content<P>>, n: Node<S, P>)
    requires Draining(total, out, AGAIN, n)
    ensures var r := n.stage.recv(n.state);
      && (r.status == AGAIN ==> n.stage.recvRank(r.state) < n.stage.recvRank(n.state))
      && Draining(total, if r.status == BREAK then out else out + [r.content], r.status, n.(state := r.state))
  {
    var r := n.stage.recv(n.state);
    if r.status == AGAIN {
      var d := Drain(n.(state := r.state));
      assert out + ([r.content] + d.out) == (out + [r.content]) + d.out;
    }
  }

  // ---------------------------------------------------------- the loops, round by round

  /** What the k-th attempt sends (the first is number 0): the packet once, then blanks. */
  function Offered<P>(c: Content<P>, k: nat): Content<P> {
    if k == 0 then c else None
  }

  /** The stage's state when k attempts to send have been made. */
  ghost function SendRounds<S(!new), P(!new)>(n: Node<S, P>, c: Content<P>, k: nat): S {
    if k == 0 then n.state
    else n.stage.send(SendRounds(n, c, k - 1), Offered(c, k - 1)).state
  }

  lemma {:induction false} SendRoundsNext<S(!new), P(!new)>(n: Node<S, P>, c: Content<P>, k: nat)
    ensures SendRounds(n, c, k + 1) == SendRounds(n.(state := n.stage.send(n.state, c).state), None, k)
  {
    if k == 0 {
      assert SendRounds(n, c, 1) == n.stage.send(SendRounds(n, c, 0), c).state;
    } else {
      SendRoundsNext(n, c, k - 1);
    }
  }

  ghost predicate Retries<S(!new), P(!new)>(n: Node<S, P>, c: Content<P>, k: nat) {
    forall j :: 0 <= j < k ==> n.stage.send(SendRounds(n, c, j), Offered(c, j)).status == AGAIN
  }

  lemma RetriesNext<S(!new), P(!new)>(n: Node<S, P>, c: Content<P>, k: nat)
    requires var r := n.stage.send(n.state, c); r.status == AGAIN && Retries(n.(state := r.state), None, k)
    ensures Retries(n, c, k + 1)
  {
    var m := n.(state := n.stage.send(n.state, c).state);
    forall j | 0 <= j < k + 1 ensures n.stage.send(SendRounds(n, c, j), Offered(c, j)).status == AGAIN {
      if j > 0 {
        SendRoundsNext(n, c, j - 1);
        hide SendRounds;
        assert m.stage.send(SendRounds(m, None, j - 1), Offered(None, j - 1)).status == AGAIN;
      }
    }
  }

  /** The send loop is the attempts up to the first that is not answered AGAIN, and its
      answer is that one's. */
  lemma {:induction false} SendAllIs<S(!new), P(!new)>(n: Node<S, P>, c: Content<P>) returns (k: nat)
    ensures Retries(n, c, k)
    ensures SendAll(n, c) == n.stage.send(SendRounds(n, c, k), Offered(c, k)) && SendAll(n, c).status != AGAIN
    decreases n.stage.sendRank(n.state)
  {
    hide Retries, Offered, SendRounds, SendAll;
    var r := n.stage.send(n.state, c);
    if r.status != AGAIN {
      k := 0;
      SendAllOnce(n, c);
    } else {
      SendAllAgain(n, c);
      var i := SendAllIs(n.(state := r.state), None);
      k := i + 1;
      SendRoundsNext(n, c, i);
      RetriesNext(n, c, i);
      BlankAgain<P>(c, i);
    }
  }

  lemma SendAllOnce<S(!new), P(!new)>(n: Node<S, P>, c: Content<P>)
    requires n.stage.send(n.state, c).status != AGAIN
    ensures Retries(n, c, 0) && SendAll(n, c) == n.stage.send(SendRounds(n, c, 0), Offered(c, 0))
    ensures SendAll(n, c).status != AGAIN
  {}

  lemma SendAllAgain<S(!new), P(!new)>(n: Node<S, P>, c: Content<P>)
    requires n.stage.send(n.state, c).status == AGAIN
    ensures SendAll(n, c) == SendAll(n.(state := n.stage.send(n.state, c).state), None)
  {}

  lemma BlankAgain<P>(c: Content<P>, i: nat)
    ensures Offered<P>(None, i) == Offered(c, i + 1)
  {}

  /** The stage's state when it has been asked for a packet k times. */
  ghost function RecvRounds<S(!new), P(!new)>(n: Node<S, P>, k: nat): S {
    if k == 0 then n.state else n.stage.recv(RecvRounds(n, k - 1)).state
  }

  lemma {:induction false} RecvRoundsNext<S(!new), P(!new)>(n: Node<S, P>, k: nat)
    ensures RecvRounds(n, k + 1) == RecvRounds(n.(state := n.stage.recv(n.state).state), k)
  {
    if k == 0 {
      assert RecvRounds(n, 1) == n.stage.recv(RecvRounds(n, 0)).state;
    } else {
      RecvRoundsNext(n, k - 1);
    }
  }

  /** The receive loop asks up to the first answer other than AGAIN.  Out comes what each
      round gave, in order; the last round's too, unless its answer is BREAK. */
  lemma {:induction false} DrainIs<S(!new), P(!new)>(n: Node<S, P>) returns (k: nat)
    ensures forall j :: 0 <= j < k ==> n.stage.recv(RecvRounds(n, j)).status == AGAIN
    ensures var last := n.stage.recv(RecvRounds(n, k));
      && last.status != AGAIN && Drain(n).state == last.state
      && |Drain(n).out| == k + (if last.status == OK then 1 else 0)
    ensures forall j :: 0 <= j < |Drain(n).out| ==> Drain(n).out[j] == n.stage.recv(RecvRounds(n, j)).content
    decreases n.stage.recvRank(n.state)
  {
    var r := n.stage.recv(n.state);
    if r.status != AGAIN {
      k := 0;
    } else {
      var m := n.(state := r.state);
      var i := DrainIs(m);
      k := i + 1;
      RecvRoundsNext(n, i);
      forall j | 0 < j <= |Drain(m).out| ensures RecvRounds(n, j) == RecvRounds(m, j - 1) {
        RecvRoundsNext(n, j - 1);
      }
      forall j | 0 <= j < k ensures n.stage.recv(RecvRounds(n, j)).status == AGAIN {
        if j > 0 { RecvRoundsNext(n, j - 1); }
      }
    }
  }

  // ------------------------------------------------------- the two kinds of filter

  /** BitstreamFilter: its RecvPacket answers OK; Encoder: decoder and
      encoder, whose RecvPacket answers AGAIN. */
  datatype Kind = BitstreamFilter | Encoder

  /** What a packet makes the library hold ready besides what it holds, in order;
      None: it is refused. */
  type Work<!P(!new)> = (seq<Content<P>>, Content<P>) -> Option<seq<Content<P>>>

  /** The filter over a library that holds what it has ready in its state. */
  ghost function Buffered<P(!new)>(kind: Kind, work: Work<P>): Stage<seq<Content<P>>, P> {
    EntryPoints(
      (ready, c) => if work(ready, c).None? then Sent(BREAK, ready) else Sent(OK, ready + work(ready, c).value),
      ready => if ready == [] then Received(BREAK, ready, None)
               else Received(if kind == BitstreamFilter then OK else AGAIN, ready[1..], ready[0]),
      ready => 0,
      ready => |ready|)
  }

  /** What is held after a round of receiving. */
  function Kept<P>(kind: Kind, ready: seq<Content<P>>): seq<Content<P>> {
    if kind == Encoder || ready == [] then [] else ready[1..]
  }

  /** All that the packets of cs make, in order; a refused one makes nothing. */
  ghost function Made<P(!new)>(kind: Kind, work: Work<P>, ready: seq<Content<P>>, cs: seq<Content<P>>): seq<Content<P>>
    decreases |cs|
  {
    if cs == [] then []
    else
      match work(ready, cs[0])
      case None => Made(kind, work, ready, cs[1..])
      case Some(more) => more + Made(kind, work, Kept(kind, ready + more), cs[1..])
  }

  lemma {:induction false} DrainBuffered<P(!new)>(kind: Kind, work: Work<P>, ready: seq<Content<P>>)
    ensures var d := Drain(Node(Buffered(kind, work), ready));
      && d.out + d.state == ready && d.state == Kept(kind, ready)
      && (kind == BitstreamFilter ==> |d.out| <= 1)
    decreases |ready|
  {
    if kind == Encoder && ready != [] { DrainBuffered(kind, work, ready[1..]); }
  }

  lemma FeedBuffered<P(!new)>(kind: Kind, work: Work<P>, ready: seq<Content<P>>, c: Content<P>)
    ensures Feed(Node(Buffered(kind, work), ready), c) ==
      if work(ready, c).None? then Produced([], ready)
      else Drain(Node(Buffered(kind, work), ready + work(ready, c).value))
  {}

  /** Nothing is lost or reordered between what the library has made, what has been
      handed on, and what it still holds.  The encoder holds nothing back; the
      bitstream filter hands on one packet for one, and keeps the surplus. */
  lemma {:induction false} BufferedConserves<P(!new)>(kind: Kind, work: Work<P>, ready: seq<Content<P>>, cs: seq<Content<P>>)
    ensures var r := FeedAll(Node(Buffered(kind, work), ready), cs);
      && r.out + r.state == ready + Made(kind, work, ready, cs)
      && (kind == BitstreamFilter ==> |r.out| <= |cs|)
      && (kind == Encoder && ready == [] ==> r.state == [] && r.out == Made(kind, work, ready, cs))
    decreases |cs|
  {
    hide Drain, Feed, SendAll, Buffered, Kept;
    if cs != [] {
      var n := Node(Buffered(kind, work), ready);
      FeedBuffered(kind, work, ready, cs[0]);
      var first := Feed(n, cs[0]);
      if work(ready, cs[0]).None? {
        BufferedConserves(kind, work, ready, cs[1..]);
        var out := FeedAll(n, cs[1..]).out;
        assert first == Produced([], ready) && [] + out == out;
      } else {
        var more := work(ready, cs[0]).value;
        DrainBuffered(kind, work, ready + more);
        NothingKept<P>(ready + more);
        BufferedConserves(kind, work, first.state, cs[1..]);
        var rest := FeedAll(n.(state := first.state), cs[1..]);
        Regroup(first.out, first.state, ready, more, rest.out, rest.state, Made(kind, work, first.state, cs[1..]));
      }
    } else {
      assert ready + [] == ready;
    }
    var r := FeedAll(Node(Buffered(kind, work), ready), cs);
    assert r.out + [] == r.out && [] + Made(kind, work, ready, cs) == Made(kind, work, ready, cs);
  }

  lemma NothingKept<P>(ready: seq<Content<P>>)
    ensures Kept(Encoder, ready) == []
  {}

  lemma Regroup<T>(o: seq<T>, s: seq<T>, ready: seq<T>, more: seq<T>, out: seq<T>, state: seq<T>, made: seq<T>)
    requires o + s == ready + more && out + state == s + made
    ensures o + out + state == ready + (more + made)
  {
    calc {
      o + out + state;
      o + (out + state);
      o + (s + made);
      (o + s) + made;
      ready + (more + made);
    }
  }

  // ------------------------------------------------------------ a filter that is full

  /** The filter refuses a packet exactly when it is full, and is then left as it was. */
  ghost predicate RefusesWhen<S(!new), P(!new)>(g: Stage<S, P>, full: S -> bool) {
    forall s: S, c: Content<P> :: if full(s) then g.send(s, c) == Sent(BREAK, s) else g.send(s, c).status == OK
  }

  /** How many packets of cs have their send answered BREAK: unref'd, they are lost. */
  ghost function Lost<S(!new), P(!new)>(n: Node<S, P>, cs: seq<Content<P>>): nat
    decreases |cs|
  {
    if cs == [] then 0
    else
      (if SendAll(n, cs[0]).status == BREAK then 1 else 0) + Lost(n.(state := Feed(n, cs[0]).state), cs[1..])
  }

  /** The filter after the packets of cs. */
  ghost function After<S(!new), P(!new)>(n: Node<S, P>, cs: seq<Content<P>>): S {
    FeedAll(n, cs).state
  }

  /** k is the first position where the packets before it leave the filter full. */
  ghost predicate FirstFull<S(!new), P(!new)>(n: Node<S, P>, full: S -> bool, cs: seq<Content<P>>, k: nat) {
    && k <= |cs| && (k < |cs| ==> full(After(n, cs[..k])))
    && forall i :: 0 <= i < k ==> !full(After(n, cs[..i]))
  }

  lemma SendWhenFull<S(!new), P(!new)>(n: Node<S, P>, full: S -> bool, c: Content<P>)
    requires RefusesWhen(n.stage, full)
    ensures full(n.state) ==> SendAll(n, c) == Sent(BREAK, n.state) && Feed(n, c) == Produced([], n.state)
    ensures !full(n.state) ==> SendAll(n, c).status == OK
  {
    var r := n.stage.send(n.state, c);
    assert if full(n.state) then r == Sent(BREAK, n.state) else r.status == OK;
  }

  /** Once it is full it stays so: DoFilter returns at the refused send and never
      comes to the receive loop that would empty it, so no packet gets through. */
  lemma {:induction false} FullForGood<S(!new), P(!new)>(n: Node<S, P>, full: S -> bool, cs: seq<Content<P>>)
    requires RefusesWhen(n.stage, full) && full(n.state)
    ensures FeedAll(n, cs) == Produced([], n.state) && Lost(n, cs) == |cs|
    decreases |cs|
  {
    hide SendAll, Feed, RefusesWhen;
    if cs == [] {
    } else {
      SendWhenFull(n, full, cs[0]);
      assert n.(state := n.state) == n;
      FullForGood(n, full, cs[1..]);
    }
  }

  lemma AfterFront<S(!new), P(!new)>(n: Node<S, P>, cs: seq<Content<P>>, i: nat)
    requires i < |cs|
    ensures FeedAll(n, cs[..i + 1]).state == FeedAll(n.(state := Feed(n, cs[0]).state), cs[1..][..i]).state
    ensures FeedAll(n, cs[..i + 1]).out == Feed(n, cs[0]).out + FeedAll(n.(state := Feed(n, cs[0]).state), cs[1..][..i]).out
  {
    hide Feed;
    assert cs[..i + 1][0] == cs[0] && cs[..i + 1][1..] == cs[1..][..i];
  }

  lemma FirstFullFront<S(!new), P(!new)>(n: Node<S, P>, full: S -> bool, cs: seq<Content<P>>, k: nat)
    requires cs != [] && !full(n.state)
    requires FirstFull(n.(state := Feed(n, cs[0]).state), full, cs[1..], k)
    ensures FirstFull(n, full, cs, k + 1)
  {
    hide Feed, FeedAll;
    var m := n.(state := Feed(n, cs[0]).state);
    if k + 1 < |cs| { AfterFront(n, cs, k); }
    forall i | 0 <= i < k + 1 ensures !full(After(n, cs[..i])) {
      if i == 0 {
        AfterNothing(n);
      } else {
        AfterFront(n, cs, i - 1);
        assert !full(After(m, cs[1..][..i - 1]));
      }
    }
  }

  lemma AfterNothing<S(!new), P(!new)>(n: Node<S, P>)
    ensures FeedAll(n, []) == Produced([], n.state)
  {}

  /** Exactly which packets a filter loses, whatever it is to be full: those from the
      first position on where the packets before have filled it; the output is that
      of the packets before. */
  lemma {:induction false} LosesTheRest<S(!new), P(!new)>(n: Node<S, P>, full: S -> bool, cs: seq<Content<P>>)
      returns (k: nat)
    requires RefusesWhen(n.stage, full)
    ensures FirstFull(n, full, cs, k) && Lost(n, cs) == |cs| - k && FeedAll(n, cs) == FeedAll(n, cs[..k])
    decreases |cs|
  {
    hide SendAll, Feed, RefusesWhen;
    AfterNothing(n);
    if cs == [] || full(n.state) {
      k := 0;
      assert cs[..0] == [];
      if cs != [] { FullForGood(n, full, cs); }
    } else {
      SendWhenFull(n, full, cs[0]);
      var m := n.(state := Feed(n, cs[0]).state);
      var j := LosesTheRest(m, full, cs[1..]);
      FirstFullFront(n, full, cs, j);
      AfterFront(n, cs, j);
      k := j + 1;
    }
  }

  /** No packet is lost exactly when none finds the filter full. */
  lemma LosesNothingIff<S(!new), P(!new)>(n: Node<S, P>, full: S -> bool, cs: seq<Content<P>>)
    requires RefusesWhen(n.stage, full)
    ensures Lost(n, cs) == 0 <==> forall i :: 0 <= i < |cs| ==> !full(After(n, cs[..i]))
  {
    hide RefusesWhen, After, Lost, FeedAll;
    var k := LosesTheRest(n, full, cs);
  }

  // --------------------------------------------------- a library with an input slot

  /** ready: packets made and not yet received; slot: a packet sent and not yet worked on. */
  datatype Slotted<P> = Slotted(ready: seq<Content<P>>, slot: Option<Content<P>>)

  /** The bitstream filter over a library that takes a packet into a slot and works on
      it when it has nothing ready: it refuses a packet, EAGAIN, while the slot is taken. */
  ghost function SlotFilter<P(!new)>(makes: Content<P> -> seq<Content<P>>): Stage<Slotted<P>, P> {
    EntryPoints(
      (s: Slotted<P>, c: Content<P>) => if s.slot.Some? then Sent(BREAK, s) else Sent(OK, s.(slot := Some(c))),
      s => ReceiveSlot(makes, s),
      s => 0,
      s => 0)
  }

  ghost function ReceiveSlot<P(!new)>(makes: Content<P> -> seq<Content<P>>, s: Slotted<P>): Received<Slotted<P>, P> {
    if s.ready != [] then Received(OK, s.(ready := s.ready[1..]), s.ready[0])
    else if s.slot.None? then Received(BREAK, s, None)
    else
      var made := makes(s.slot.value);
      if made == [] then Received(BREAK, Slotted([], None), None)
      else Received(OK, Slotted(made[1..], None), made[0])
  }

  function Idle<P>(): Slotted<P> {
    Slotted([], None)
  }

  predicate Taken<P>(s: Slotted<P>) {
    s.slot.Some?
  }

  lemma SlotRefuses<P(!new)>(makes: Content<P> -> seq<Content<P>>)
    ensures RefusesWhen(SlotFilter(makes), (s: Slotted<P>) => Taken(s))
  {}

  lemma FeedSlot<P(!new)>(makes: Content<P> -> seq<Content<P>>, s: Slotted<P>, c: Content<P>)
    requires s.slot.None?
    ensures var r, made := Feed(Node(SlotFilter(makes), s), c), makes(c);
      if s.ready != [] then r == Produced([s.ready[0]], Slotted(s.ready[1..], Some(c)))
      else r == Produced(if made == [] then [] else [made[0]], Slotted(if made == [] then [] else made[1..], None))
  {}

  /** As long as no packet makes more than one, the library is idle after each. */
  lemma {:induction false} IdleAfter<P(!new)>(makes: Content<P> -> seq<Content<P>>, cs: seq<Content<P>>)
    requires forall i :: 0 <= i < |cs| ==> |makes(cs[i])| <= 1
    ensures After(Node(SlotFilter(makes), Idle()), cs) == Idle()
    decreases |cs|
  {
    hide SlotFilter, Feed;
    if cs == [] {
    } else {
      FeedSlot(makes, Idle(), cs[0]);
      IdleAfter(makes, cs[1..]);
    }
  }

  lemma AfterOneMore<S(!new), P(!new)>(n: Node<S, P>, cs: seq<Content<P>>, c: Content<P>)
    ensures After(n, cs + [c]) == Feed(n.(state := After(n, cs)), c).state
  {
    hide Feed;
    FeedAllAppend(n, cs, [c]);
    assert [c][1..] == [];
  }

  /** A packet that makes two or more, coming to the idle library, fills it with the
      next one: that stays in the slot. */
  lemma SplitFills<P(!new)>(makes: Content<P> -> seq<Content<P>>, cs: seq<Content<P>>, c: Content<P>, d: Content<P>)
    requires forall i :: 0 <= i < |cs| ==> |makes(cs[i])| <= 1
    requires |makes(c)| >= 2
    ensures var n := Node(SlotFilter(makes), Idle());
      !Taken(After(n, cs)) && !Taken(After(n, cs + [c])) && Taken(After(n, cs + [c] + [d]))
  {
    hide SlotFilter, Feed, After;
    var n := Node(SlotFilter(makes), Idle());
    IdleAfter(makes, cs);
    AfterOneMore(n, cs, c);
    FeedSlot(makes, Idle(), c);
    AfterOneMore(n, cs + [c], d);
    FeedSlot(makes, After(n, cs + [c]), d);
  }

  /** The packet at position i is the first that makes two or more. */
  ghost predicate FirstSplit<P(!new)>(makes: Content<P> -> seq<Content<P>>, cs: seq<Content<P>>, i: nat) {
    && i < |cs| && |makes(cs[i])| >= 2
    && forall j :: 0 <= j < i ==> |makes(cs[j])| <= 1
  }

  /** Where the slot is first found taken: two positions after the first split. */
  lemma SlotFirstFull<P(!new)>(makes: Content<P> -> seq<Content<P>>, cs: seq<Content<P>>, i: nat, k: nat)
    requires FirstSplit(makes, cs, i)
    requires FirstFull(Node(SlotFilter(makes), Idle()), (s: Slotted<P>) => Taken(s), cs, k)
    ensures k == if i + 2 < |cs| then i + 2 else |cs|
  {
    hide SlotFilter, After;
    var n := Node(SlotFilter(makes), Idle());
    forall j | 0 <= j <= i ensures !Taken(After(n, cs[..j])) {
      IdleAfter(makes, cs[..j]);
      IdleIs(makes, cs[..j]);
    }
    if i + 1 < |cs| {
      SplitFills(makes, cs[..i], cs[i], cs[i + 1]);
      assert cs[..i + 1] == cs[..i] + [cs[i]] && cs[..i + 2] == cs[..i] + [cs[i]] + [cs[i + 1]];
    }
  }

  lemma IdleIs<P(!new)>(makes: Content<P> -> seq<Content<P>>, cs: seq<Content<P>>)
    requires After(Node(SlotFilter(makes), Idle()), cs) == Idle()
    ensures !Taken(After(Node(SlotFilter(makes), Idle()), cs))
  {}

  /** How many packets such a filter loses: after the first one that it splits one more
      gets in, and all that follow are lost. */
  lemma SplittingLoses<P(!new)>(makes: Content<P> -> seq<Content<P>>, cs: seq<Content<P>>, i: nat)
    requires FirstSplit(makes, cs, i)
    ensures Lost(Node(SlotFilter(makes), Idle()), cs) == if i + 2 < |cs| then |cs| - (i + 2) else 0
  {
    hide SlotFilter, Lost, FirstFull, RefusesWhen, FeedAll;
    SlotRefuses(makes);
    var k := LosesTheRest(Node(SlotFilter(makes), Idle()), (s: Slotted<P>) => Taken(s), cs);
    SlotFirstFull(makes, cs, i, k);
  }

  lemma {:induction false} FindSplit<P(!new)>(makes: Content<P> -> seq<Content<P>>, cs: seq<Content<P>>) returns (i: nat)
    ensures i <= |cs| && (i < |cs| ==> FirstSplit(makes, cs, i))
    ensures forall j :: 0 <= j < i ==> |makes(cs[j])| <= 1
    decreases |cs|
  {
    if cs == [] || |makes(cs[0])| >= 2 {
      i := 0;
    } else {
      var j := FindSplit(makes, cs[1..]);
      i := j + 1;
      forall l | 0 < l < i ensures |makes(cs[l])| <= 1 { assert cs[l] == cs[1..][l - 1]; }
    }
  }

  /** Exactly when it loses a packet: some packet with two or more behind it is split. */
  lemma SplittingLosesIff<P(!new)>(makes: Content<P> -> seq<Content<P>>, cs: seq<Content<P>>)
    ensures Lost(Node(SlotFilter(makes), Idle()), cs) == 0
       <==> forall i :: 0 <= i && i + 2 < |cs| ==> |makes(cs[i])| <= 1
  {
    hide SlotFilter, Lost;
    var n := Node(SlotFilter(makes), Idle());
    var i := FindSplit(makes, cs);
    if i < |cs| {
      SplittingLoses(makes, cs, i);
    } else {
      SlotRefuses(makes);
      forall j | 0 <= j < |cs| ensures !Taken(After(n, cs[..j])) {
        IdleAfter(makes, cs[..j]);
        IdleIs(makes, cs[..j]);
      }
      LosesNothingIff(n, (s: Slotted<P>) => Taken(s), cs);
    }
  }

  /** A packet that is lost: every packet is split in two, and the third is refused. */
  lemma ThirdIsLost<P(!new)>(p: P)
    ensures Lost(Node(SlotFilter((c: Content<P>) => [c, c]), Idle()), [Some(p), Some(p), Some(p)]) == 1
  {
    hide SlotFilter, Lost;
    SplittingLoses((c: Content<P>) => [c, c], [Some(p), Some(p), Some(p)], 0);
  }

  // ------------------------------------------------------------------ options

  datatype FilterType = STREAM_FILTER_NONE | STREAM_FILTER_VIDEO_BSF | STREAM_FILTER_VIDEO_ENC

  /** What the configuration asks for: a type, and the filter it would make. */
  datatype FilterOptions<!S(!new), !P(!new)> = FilterOptions(ftype: FilterType, stage: Stage<S, P>, initial: S)

  /** The chain a list of options stands for; other types are skipped. */
  ghost function FromOptions<S(!new), P(!new)>(opts: seq<FilterOptions<S, P>>): seq<Node<S, P>> {
    if opts == [] then []
    else
      var o := opts[|opts| - 1];
      FromOptions(opts[..|opts| - 1]) + (if o.ftype == STREAM_FILTER_NONE then [] else [Node(o.stage, o.initial)])
  }

  lemma OptionsSnoc<S(!new), P(!new)>(opts: seq<FilterOptions<S, P>>, k: nat)
    requires k < |opts|
    ensures var o := opts[k];
      FromOptions(opts[..k + 1]) == FromOptions(opts[..k])
        + (if o.ftype == STREAM_FILTER_NONE then [] else [Node(o.stage, o.initial)])
  {
    assert opts[..k + 1][..k] == opts[..k];
  }

  /** Lists of options joined stand for their chains joined; an option stands for one
      filter in its initial state, or for none. */
  lemma {:induction false} OptionsJoin<S(!new), P(!new)>(a: seq<FilterOptions<S, P>>, b: seq<FilterOptions<S, P>>)
    ensures FromOptions(a + b) == FromOptions(a) + FromOptions(b)
    ensures |a| == 1 ==>
              FromOptions(a) == if a[0].ftype == STREAM_FILTER_NONE then [] else [Node(a[0].stage, a[0].initial)]
    decreases |b|
  {
    if |a| == 1 { OptionsSnoc(a, 0); }
    if b == [] {
      assert a + b == a;
    } else {
      var n := |b| - 1;
      OptionsJoin(a, b[..n]);
      assert (a + b)[..|a + b| - 1] == a + b[..n];
    }
  }

  // ------------------------------------------------------------ the running code

  class AVPacket<P> {
    var content: Content<P>

    constructor ()
      ensures content == None
    {
      content := None;
    }

    method Unref()
      modifies this
      ensures content == None
    {
      content := None;
    }
  }

  class Filter<S(!new), P(!new)> {
    const stage: Stage<S, P>
    var state: S

    constructor (stage: Stage<S, P>, state: S)
      ensures this.stage == stage && this.state == state
    {
      this.stage, this.state := stage, state;
    }

    ghost function AsNode(): Node<S, P>
      reads this
    {
      Node(stage, state)
    }

    method SendPacket(pkt: AVPacket<P>) returns (status: FilterStatus)
      modifies this
      ensures Sent(status, state) == stage.send(old(state), old(pkt.content))
    {
      var r := stage.send(state, pkt.content);
      state := r.state;
      status := r.status;
    }

    /** A refused receive does not touch the packet. */
    method RecvPacket(pkt: AVPacket<P>) returns (status: FilterStatus)
      modifies this, pkt
      ensures var r := stage.recv(old(state));
        status == r.status && state == r.state
        && pkt.content == if status == BREAK then old(pkt.content) else r.content
    {
      var r := stage.recv(state);
      state := r.state;
      status := r.status;
      if status != BREAK {
        pkt.content := r.content;
      }
    }
  }

  ghost function Nodes<S(!new), P(!new)>(filters: seq<Filter<S, P>>, i: nat): (r: seq<Node<S, P>>)
    requires i <= |filters|
    reads filters[i..]
    ensures |r| == |filters| - i
    decreases |filters| - i
  {
    if i == |filters| then [] else [filters[i].AsNode()] + Nodes(filters, i + 1)
  }

  class StreamHandler<S(!new), P(!new)> {
    const filtersOptions: seq<FilterOptions<S, P>>
    var videoFiltersInited: bool
    var videoFilters: seq<Filter<S, P>>
    var packetRecv: AVPacket?<P>
    /** What the packet callback has been given, oldest first. */
    var delivered: seq<Content<P>>
    /** The contents of the packets of the handled stream, oldest first. */
    ghost var fed: seq<Content<P>>

    constructor (opts: seq<FilterOptions<S, P>>)
      ensures filtersOptions == opts && fed == [] && Running()
      ensures packetRecv == null && videoFilters == []
    {
      filtersOptions := opts;
      videoFiltersInited, videoFilters, packetRecv, delivered, fed := false, [], null, [], [];
    }

    ghost predicate Valid()
      reads this
    {
      forall i, j :: 0 <= i < j < |videoFilters| ==> videoFilters[i] != videoFilters[j]
    }

    method OnRecv(pkt: AVPacket<P>)
      modifies this`delivered
      ensures delivered == old(delivered) + [pkt.content]
    {
      delivered := delivered + [pkt.content];
    }

    /** The receive packet, when it is there and is not the one being worked on, is blank. */
    ghost predicate RecvBlank(pkt: AVPacket<P>)
      reads this, packetRecv
    {
      packetRecv != null && packetRecv != pkt ==> packetRecv.content == None
    }

    /** The send loop: the packet is blanked after every attempt. */
    method SendLoop(f: Filter<S, P>, pkt: AVPacket<P>) returns (status: FilterStatus)
      modifies f, pkt
      ensures Sent(status, f.state) == SendAll(old(f.AsNode()), old(pkt.content))
      ensures status != AGAIN && pkt.content == None
    {
      status := f.SendPacket(pkt);
      pkt.Unref();
      while status == AGAIN
        invariant pkt.content == None
        invariant SendAll(old(f.AsNode()), old(pkt.content))
               == if status == AGAIN then SendAll(f.AsNode(), None) else Sent(status, f.state)
        decreases if status == AGAIN then 1 + f.stage.sendRank(f.state) else 0
      {
        status := f.SendPacket(pkt);
        pkt.Unref();
      }
    }

    /** The recursion of the source from the i-th filter on.  Nested calls pass
        the shared receive packet as their input. */
    method DoFilter(i: nat, pkt: AVPacket<P>)
      requires Valid() && i <= |videoFilters| && RecvBlank(pkt)
      modifies this`delivered, this`packetRecv, pkt, packetRecv, videoFilters[i..]
      ensures var c := Chain(old(Nodes(videoFilters, i)), [old(pkt.content)]);
        delivered == old(delivered) + c.out && Nodes(videoFilters, i) == c.nodes
      ensures Valid() && RecvBlank(pkt)
      ensures packetRecv == old(packetRecv) || (old(packetRecv) == null && fresh(packetRecv))
      ensures pkt.content == if i < |videoFilters| then None else old(pkt.content)
      decreases |videoFilters| - i, 3
    {
      hide Chain, Nodes, Feed;
      ghost var nodes, c := Nodes(videoFilters, i), pkt.content;
      if i == |videoFilters| {
        ChainOfNone<S, P>([c]);
        OnRecv(pkt);
      } else {
        NodesCons(videoFilters, i);
        ChainOne(nodes, c);
        assert nodes[1..] == Nodes(videoFilters, i + 1);
        SendAndRecv(i, pkt);
        NodesCons(videoFilters, i);
      }
    }

    /** The i-th filter's share: the send loop and, unless refused, the receive loop. */
    method SendAndRecv(i: nat, pkt: AVPacket<P>)
      requires Valid() && i < |videoFilters| && RecvBlank(pkt)
      modifies this`delivered, this`packetRecv, pkt, packetRecv, videoFilters[i..]
      ensures var p := Feed(old(videoFilters[i].AsNode()), old(pkt.content));
        var c := Chain(old(Nodes(videoFilters, i + 1)), p.out);
        && delivered == old(delivered) + c.out
        && videoFilters[i].state == p.state && Nodes(videoFilters, i + 1) == c.nodes
      ensures Valid() && RecvBlank(pkt) && pkt.content == None
      ensures packetRecv == old(packetRecv) || (old(packetRecv) == null && fresh(packetRecv))
      decreases |videoFilters| - i, 2
    {
      hide Chain, Nodes, SendAll, Drain;
      ChainNothing(Nodes(videoFilters, i + 1));
      var status := SendLoop(videoFilters[i], pkt);
      if status == BREAK {
        return;
      }
      if packetRecv == null {
        packetRecv := new AVPacket();
      }
      RecvLoop(i);
    }

    /** The receive loop: everything the i-th filter gives back goes down the
        rest of the chain before the next is asked for. */
    method RecvLoop(i: nat)
      requires Valid() && i < |videoFilters| && packetRecv != null && packetRecv.content == None
      modifies this`delivered, this`packetRecv, packetRecv, videoFilters[i..]
      ensures var p := Drain(old(videoFilters[i].AsNode()));
        var c := Chain(old(Nodes(videoFilters, i + 1)), p.out);
        && delivered == old(delivered) + c.out
        && videoFilters[i].state == p.state && Nodes(videoFilters, i + 1) == c.nodes
      ensures Valid() && packetRecv == old(packetRecv) && packetRecv.content == None
      decreases |videoFilters| - i, 1, 1
    {
      hide Chain, Nodes, Drain, Draining;
      ghost var n := videoFilters[i].AsNode();
      ghost var total, rest, out := Drain(n), Nodes(videoFilters, i + 1), [];
      DrainStart(n);
      ChainNothing(rest);
      var status := AGAIN;
      while status == AGAIN
        invariant status != BREAK && n == videoFilters[i].AsNode()
        invariant Draining(total, out, status, n)
        invariant var c := Chain(rest, out);
          delivered == old(delivered) + c.out && Nodes(videoFilters, i + 1) == c.nodes
        invariant packetRecv == old(packetRecv) && packetRecv.content == None
        decreases if status == AGAIN then 1 + n.stage.recvRank(n.state) else 0
      {
        status, out := RecvRound(i, total, rest, out, old(delivered));
        n := videoFilters[i].AsNode();
        if status == BREAK {
          break;
        }
      }
      DrainDone(total, out, status, n);
    }

    /** One round, against what the loop has done so far. */
    method RecvRound(i: nat, ghost total: Produced<S, P>, ghost rest: seq<Node<S, P>>,
                     ghost out: seq<Content<P>>, ghost base: seq<Content<P>>)
      returns (status: FilterStatus, ghost next: seq<Content<P>>)
      requires Valid() && i < |videoFilters| && packetRecv != null && packetRecv.content == None
      requires Draining(total, out, AGAIN, videoFilters[i].AsNode())
      requires var c := Chain(rest, out); delivered == base + c.out && Nodes(videoFilters, i + 1) == c.nodes
      modifies this`delivered, this`packetRecv, packetRecv, videoFilters[i..]
      ensures Draining(total, next, status, videoFilters[i].AsNode())
      ensures var c := Chain(rest, next); delivered == base + c.out && Nodes(videoFilters, i + 1) == c.nodes
      ensures status == AGAIN ==>
                videoFilters[i].stage.recvRank(videoFilters[i].state) < videoFilters[i].stage.recvRank(old(videoFilters[i].state))
      ensures Valid() && packetRecv == old(packetRecv) && packetRecv.content == None
      decreases |videoFilters| - i, 1, 0
    {
      hide Chain, Nodes, Drain, Draining;
      ghost var n := videoFilters[i].AsNode();
      DrainOne(total, out, n);
      ghost var r := n.stage.recv(n.state);
      ChainAppend(rest, out, [r.content]);
      status := RecvOne(i);
      next := if status == BREAK then out else out + [r.content];
    }

    /** One round of the receive loop. */
    method RecvOne(i: nat) returns (status: FilterStatus)
      requires Valid() && i < |videoFilters| && packetRecv != null && packetRecv.content == None
      modifies this`delivered, this`packetRecv, packetRecv, videoFilters[i..]
      ensures var r := videoFilters[i].stage.recv(old(videoFilters[i].state));
        && status == r.status && videoFilters[i].state == r.state
        && if status == BREAK
           then delivered == old(delivered) && Nodes(videoFilters, i + 1) == old(Nodes(videoFilters, i + 1))
           else var c := Chain(old(Nodes(videoFilters, i + 1)), [r.content]);
             delivered == old(delivered) + c.out && Nodes(videoFilters, i + 1) == c.nodes
      ensures Valid() && packetRecv == old(packetRecv) && packetRecv.content == None
      decreases |videoFilters| - i, 0
    {
      hide Chain, Nodes;
      status := videoFilters[i].RecvPacket(packetRecv);
      if status == BREAK {
        packetRecv.Unref();
        return;
      }
      DoFilter(i + 1, packetRecv);
      packetRecv.Unref();
    }

    // ------------------------------------------------------------- a whole run

    /** What every call of OnRunning keeps: all that was ever delivered is the
        composition of the configured stages applied to all that was ever fed. */
    ghost predicate Running()
      reads this, packetRecv, videoFilters
    {
      && Valid()
      && (packetRecv != null ==> packetRecv.content == None)
      && if videoFiltersInited
         then Chain(FromOptions(filtersOptions), fed) == Chained(delivered, Nodes(videoFilters, 0))
         else videoFilters == [] && fed == [] && delivered == []
    }

    /** Creates the filters, once. */
    method InitVideoFilters()
      requires Running()
      modifies this`videoFilters, this`videoFiltersInited
      ensures Running() && videoFiltersInited
      ensures old(videoFiltersInited) ==> videoFilters == old(videoFilters)
      ensures forall k :: 0 <= k < |videoFilters| ==> videoFilters[k] in old(videoFilters) || fresh(videoFilters[k])
    {
      hide Chain, Nodes, FromOptions;
      if videoFiltersInited { return; }
      ChainNothing(FromOptions(filtersOptions));
      CreateFilters();
      videoFiltersInited := true;
    }

    method CreateFilters()
      requires videoFilters == []
      modifies this`videoFilters
      ensures Valid() && Nodes(videoFilters, 0) == FromOptions(filtersOptions)
      ensures forall k :: 0 <= k < |videoFilters| ==> fresh(videoFilters[k])
    {
      hide Nodes, FromOptions;
      NoFilters(filtersOptions, videoFilters);
      for k := 0 to |filtersOptions|
        invariant Valid()
        invariant forall j :: 0 <= j < |videoFilters| ==> fresh(videoFilters[j])
        invariant Nodes(videoFilters, 0) == FromOptions(filtersOptions[..k])
      {
        var o := filtersOptions[k];
        OptionsSnoc(filtersOptions, k);
        if o.ftype != STREAM_FILTER_NONE {
          var f := new Filter(o.stage, o.initial);
          NodesSnoc(videoFilters, f, 0);
          videoFilters := videoFilters + [f];
        }
      }
      assert filtersOptions[..|filtersOptions|] == filtersOptions;
    }

    /** One packet read from the source; `handled`: it belongs to the video stream.
        A packet of another stream is left as it is. */
    method OnRunning(pkt: AVPacket<P>, handled: bool)
      requires Running() && pkt != packetRecv
      modifies this, pkt, packetRecv, videoFilters
      ensures Running()
      ensures fed == old(fed) + (if handled then [old(pkt.content)] else [])
      ensures pkt.content == if handled then None else old(pkt.content)
      ensures !handled ==> delivered == old(delivered)
      ensures packetRecv == old(packetRecv) || (old(packetRecv) == null && fresh(packetRecv))
    {
      if !handled { return; }
      InitVideoFilters();
      HandlePacket(pkt);
    }

    method HandlePacket(pkt: AVPacket<P>)
      requires Running() && videoFiltersInited && pkt != packetRecv
      modifies this`delivered, this`packetRecv, this`fed, pkt, packetRecv, videoFilters
      ensures Running() && videoFiltersInited && pkt.content == None
      ensures fed == old(fed) + [old(pkt.content)]
      ensures packetRecv == old(packetRecv) || (old(packetRecv) == null && fresh(packetRecv))
    {
      hide Chain, FromOptions, Nodes;
      ghost var c := pkt.content;
      ChainAppend(FromOptions(filtersOptions), fed, [c]);
      RunFilters(pkt);
      fed := fed + [c];
    }

    /** The packet goes to the callback when there is no filter, else down the chain. */
    method RunFilters(pkt: AVPacket<P>)
      requires Valid() && RecvBlank(pkt)
      modifies this`delivered, this`packetRecv, pkt, packetRecv, videoFilters
      ensures var c := Chain(old(Nodes(videoFilters, 0)), [old(pkt.content)]);
        delivered == old(delivered) + c.out && Nodes(videoFilters, 0) == c.nodes
      ensures Valid() && RecvBlank(pkt) && pkt.content == None
      ensures packetRecv == old(packetRecv) || (old(packetRecv) == null && fresh(packetRecv))
    {
      hide Chain;
      if videoFilters == [] {
        ChainOfNone<S, P>([pkt.content]);
        OnRecv(pkt);
        pkt.Unref();
      } else {
        DoFilter(0, pkt);
      }
    }
  }

  lemma ChainOfNone<S(!new), P(!new)>(cs: seq<Content<P>>)
    ensures Chain<S, P>([], cs) == Chained(cs, [])
  {}

  lemma NoFilters<S(!new), P(!new)>(opts: seq<FilterOptions<S, P>>, filters: seq<Filter<S, P>>)
    requires filters == []
    ensures Nodes(filters, 0) == FromOptions(opts[..0])
  {}

  lemma NodesSnoc<S(!new), P(!new)>(filters: seq<Filter<S, P>>, f: Filter<S, P>, i: nat)
    requires i <= |filters|
    ensures Nodes(filters + [f], i) == Nodes(filters, i) + [f.AsNode()]
    decreases |filters| - i
  {
    if i < |filters| {
      NodesSnoc(filters, f, i + 1);
    } else {
      assert Nodes(filters + [f], i + 1) == [];
    }
  }

  lemma NodesCons<S(!new), P(!new)>(filters: seq<Filter<S, P>>, i: nat)
    requires i < |filters|
    ensures Nodes(filters, i) == [filters[i].AsNode()] + Nodes(filters, i + 1)
  {}
}
