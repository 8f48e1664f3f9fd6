/**
 The fan-out of the proxy: published packets, the rooms of the streams, and the
 sessions (rtsp-ws-proxy/ws_stream_server.cc, ws_stream_room.cc,
 ws_stream_session.cc, ws_session.h).

 The whole system is a state machine whose steps are the stretches of code that
 run under one lock.  Posted `DoSend` handlers form a bag: the io_context has
 several threads and no strand, so they may run in any order.
 */
module Fanout {
  import opened Options
  import opened SendQueue
  import opened Sequences

  type StreamId = string
  type SessionId = nat
  type Rooms = map<StreamId, set<SessionId>>

  // ---------------------------------------------------------------------- rooms

  function Members(rooms: Rooms, id: StreamId): set<SessionId> {
    if id in rooms then rooms[id] else {}
  }

  /** Looking a room up creates it. */
  function Touch(rooms: Rooms, id: StreamId): Rooms {
    rooms[id := Members(rooms, id)]
  }

  function Joined(rooms: Rooms, id: StreamId, s: SessionId): Rooms {
    rooms[id := Members(rooms, id) + {s}]
  }

  function Left(rooms: Rooms, id: StreamId, s: SessionId): Rooms {
    rooms[id := Members(rooms, id) - {s}]
  }

  /** Each operation changes the members of its own room at most. */
  lemma MembersAfter(rooms: Rooms, id: StreamId, s: SessionId, i: StreamId)
    ensures Members(Touch(rooms, id), i) == Members(rooms, i)
    ensures Members(Joined(rooms, id, s), i) == if i == id then Members(rooms, i) + {s} else Members(rooms, i)
    ensures Members(Left(rooms, id, s), i) == if i == id then Members(rooms, i) - {s} else Members(rooms, i)
  {}

  class WsStreamRoom {
    var sessionsMap: Rooms

    constructor ()
      ensures forall id :: Members(sessionsMap, id) == {}
    {
      sessionsMap := map[];
    }

    method Empty(id: StreamId) returns (empty: bool)
      modifies this
      ensures sessionsMap == Touch(old(sessionsMap), id)
      ensures empty <==> Members(old(sessionsMap), id) == {}
    {
      if id !in sessionsMap { sessionsMap := sessionsMap[id := {}]; }
      empty := sessionsMap[id] == {};
    }

    method Join(id: StreamId, s: SessionId)
      modifies this
      ensures sessionsMap == Joined(old(sessionsMap), id, s)
    {
      if id !in sessionsMap { sessionsMap := sessionsMap[id := {}]; }
      sessionsMap := sessionsMap[id := sessionsMap[id] + {s}];
    }

    method Leave(id: StreamId, s: SessionId)
      modifies this
      ensures sessionsMap == Left(old(sessionsMap), id, s)
    {
      if id !in sessionsMap { sessionsMap := sessionsMap[id := {}]; }
      sessionsMap := sessionsMap[id := sessionsMap[id] - {s}];
    }

    /** The part of Send that holds the lock: every member once, in some order. */
    method Snapshot(id: StreamId) returns (v: seq<SessionId>)
      modifies this
      ensures sessionsMap == Touch(old(sessionsMap), id)
      ensures multiset(v) == multiset(Members(old(sessionsMap), id))
    {
      if id !in sessionsMap { sessionsMap := sessionsMap[id := {}]; }
      var left := sessionsMap[id];
      v := [];
      while left != {}
        invariant left <= Members(sessionsMap, id)
        invariant multiset(v) == multiset(Members(sessionsMap, id) - left)
      {
        var s :| s in left;
        assert Members(sessionsMap, id) - (left - {s}) == Members(sessionsMap, id) - left + {s};
        left := left - {s};
        v := v + [s];
      }
    }
  }

  // ---------------------------------------------------------------- the system

  /** One published buffer; serial: which one. */
  datatype Msg = Msg(stream: StreamId, serial: nat)

  datatype Life = Accepting | Open | Closed

  /** accepts: how often the handshake succeeded; joinedAt: when it last did. */
  datatype Conn = Conn(
    stream: StreamId, life: Life, reading: bool, accepts: nat, joinedAt: nat, queue: Queue<Msg>)

  type Conns = map<SessionId, Conn>

  /** The messages under way. */
  datatype Mail = Mail(
    nextSerial: nat,
    publishedAt: map<Msg, nat>,            // when Send was called
    checked: set<Msg>,                     // in Send, between Empty and the snapshot
    snapshotAt: map<Msg, nat>,
    targets: map<Msg, set<SessionId>>,     // the snapshot
    waiting: map<Msg, set<SessionId>>,     // the part of it not yet looked at
    posted: multiset<(SessionId, Msg)>,    // DoSend handlers waiting to run
    lost: set<(SessionId, Msg)>)           // sessions gone before the post

  datatype System = System(
    prefix: string,                        // ws_target_prefix
    bound: Bound,                          // send_queue_max_size, as the sessions hold it
    clock: nat,                            // steps taken
    streams: set<StreamId>,                // stream_map_
    rooms: Rooms,
    conns: Conns,
    mail: Mail)

  datatype Action =
    | Publish(id: StreamId)
    | Snapshot(m: Msg)
    | Post(m: Msg, s: SessionId)
    | Expire(m: Msg, s: SessionId)
    | RunSend(s: SessionId, m: Msg)
    | WriteOk(s: SessionId)
    | WriteError(s: SessionId)
    | Admit(s: SessionId, target: string)
    | Accept(s: SessionId, ok: bool)
    | ReadError(s: SessionId)

  function Init(prefix: string, configured: int): System {
    System(prefix, SessionBound(configured), 0, {}, map[], map[],
           Mail(0, map[], {}, map[], map[], map[], multiset{}, {}))
  }

  /** The stream a target names: what follows the prefix. */
  function Requested(sys: System, target: string): StreamId
    requires sys.prefix <= target
  {
    target[|sys.prefix|..]
  }

  predicate Enabled(sys: System, a: Action) {
    match a
    case Publish(_) => true
    case Snapshot(m) => m in sys.mail.checked
    case Post(m, s) => m in sys.mail.waiting && s in sys.mail.waiting[m] && s in sys.conns
    case Expire(m, s) =>
      m in sys.mail.waiting && s in sys.mail.waiting[m] && s in sys.conns && sys.conns[s].life.Closed?
    case RunSend(s, m) => (s, m) in sys.mail.posted && s in sys.conns
    case WriteOk(s) => s in sys.conns && sys.conns[s].queue.writing && sys.conns[s].queue.queue != []
    case WriteError(s) => s in sys.conns && sys.conns[s].queue.writing
    case Admit(s, target) => s !in sys.conns && sys.prefix <= target && Requested(sys, target) in sys.streams
    case Accept(s, _) => s in sys.conns && sys.conns[s].life.Accepting?
    case ReadError(s) => s in sys.conns && sys.conns[s].reading
  }

  // What the steps do to the messages under way.

  function Published(mail: Mail, id: StreamId, now: nat): Mail {
    var m := Msg(id, mail.nextSerial);
    mail.(nextSerial := mail.nextSerial + 1, checked := mail.checked + {m},
          publishedAt := mail.publishedAt[m := now])
  }

  function Snapped(mail: Mail, m: Msg, v: set<SessionId>, now: nat): Mail {
    mail.(checked := mail.checked - {m}, snapshotAt := mail.snapshotAt[m := now],
          targets := mail.targets[m := v], waiting := mail.waiting[m := v])
  }

  function Posted(mail: Mail, m: Msg, s: SessionId): Mail
    requires m in mail.waiting
  {
    mail.(waiting := mail.waiting[m := mail.waiting[m] - {s}], posted := mail.posted + multiset{(s, m)})
  }

  function Expired(mail: Mail, m: Msg, s: SessionId): Mail
    requires m in mail.waiting
  {
    mail.(waiting := mail.waiting[m := mail.waiting[m] - {s}], lost := mail.lost + {(s, m)})
  }

  function Taken(mail: Mail, m: Msg, s: SessionId): Mail {
    mail.(posted := mail.posted - multiset{(s, m)})
  }

  /** A session changes; closed, it leaves its room, opened, it joins it. */
  function Change(sys: System, s: SessionId, c: Conn): System {
    sys.(conns := sys.conns[s := c],
         rooms := match c.life
                  case Accepting => sys.rooms
                  case Open => Joined(sys.rooms, c.stream, s)
                  case Closed => Left(sys.rooms, c.stream, s))
  }

  function Next(sys: System, a: Action): System
    requires Enabled(sys, a)
  {
    match a
    case Publish(id) =>
      sys.(streams := sys.streams + {id}, rooms := Touch(sys.rooms, id),
           mail := if Members(sys.rooms, id) == {} then sys.mail else Published(sys.mail, id, sys.clock))
    case Snapshot(m) =>
      sys.(rooms := Touch(sys.rooms, m.stream),
           mail := Snapped(sys.mail, m, Members(sys.rooms, m.stream), sys.clock))
    case Post(m, s) => sys.(mail := Posted(sys.mail, m, s))
    case Expire(m, s) => sys.(mail := Expired(sys.mail, m, s))
    case RunSend(s, m) =>
      var c := sys.conns[s];
      sys.(mail := Taken(sys.mail, m, s), conns := sys.conns[s := c.(queue := Send(c.queue, m))])
    case WriteOk(s) =>
      var c := sys.conns[s];
      sys.(conns := sys.conns[s := c.(queue := WriteDone(c.queue))])
    case WriteError(s) =>
      var c := sys.conns[s];
      Change(sys, s, c.(queue := WriteFail(c.queue), life := Closed))
    case Admit(s, target) =>
      Change(sys, s, Conn(Requested(sys, target), Accepting, false, 0, 0, Empty(sys.bound)))
    case Accept(s, ok) =>
      var c := sys.conns[s];
      if ok then Change(sys, s, Opened(c, sys.clock))
      else Change(sys, s, c.(life := Closed))
    case ReadError(s) =>
      Change(sys, s, sys.conns[s].(reading := false, life := Closed))
  }

  /** A step that cannot be taken changes nothing. */
  function Take(sys: System, a: Action): System {
    if Enabled(sys, a) then Next(sys, a).(clock := sys.clock + 1) else sys
  }

  function TakeAll(sys: System, run: seq<Action>): System
    decreases |run|
  {
    if run == [] then sys else TakeAll(Take(sys, run[0]), run[1..])
  }

  // ------------------------------------------------------------------ invariant

  /** A session is in a room exactly while it is open, and only in its own. */
  ghost predicate Membership(rooms: Rooms, conns: Conns) {
    forall id, s ::
      s in Members(rooms, id) <==> s in conns && conns[s].stream == id && conns[s].life.Open?
  }

  ghost predicate ConnOk(bound: Bound, now: nat, c: Conn) {
    && Consistent(c.queue) && NewestKept(c.queue) && c.queue.max == bound
    && c.accepts <= 1
    && (c.life.Accepting? ==> c.accepts == 0)
    && (c.life.Open? ==> c.accepts == 1)
    && (c.accepts == 1 ==> c.joinedAt < now)
  }

  ghost predicate ConnsOk(bound: Bound, now: nat, conns: Conns) {
    forall s :: s in conns ==> ConnOk(bound, now, conns[s])
  }

  /** Message m, whose snapshot was taken at time t, is for a session of its
      stream that had joined by then. */
  ghost predicate Addressed(conns: Conns, m: Msg, t: nat, s: SessionId) {
    s in conns && conns[s].stream == m.stream && conns[s].accepts == 1 && conns[s].joinedAt < t
  }

  ghost predicate TimesOk(mail: Mail, now: nat) {
    && mail.targets.Keys == mail.waiting.Keys == mail.snapshotAt.Keys
    && (forall m :: m in mail.publishedAt ==> m.serial < mail.nextSerial && mail.publishedAt[m] < now)
    && (forall m :: m in mail.checked ==> m !in mail.targets && m in mail.publishedAt)
    && (forall m :: m in mail.targets ==>
          m in mail.publishedAt && mail.publishedAt[m] < mail.snapshotAt[m] < now)
  }

  ghost predicate TargetsOk(mail: Mail, conns: Conns)
    requires mail.targets.Keys <= mail.snapshotAt.Keys
  {
    forall m, s :: m in mail.targets && s in mail.targets[m] ==> Addressed(conns, m, mail.snapshotAt[m], s)
  }

  function Bit(b: bool): nat { if b then 1 else 0 }

  function Enqueued(conns: Conns, s: SessionId): multiset<Msg> {
    if s in conns then multiset(conns[s].queue.enqueued) else multiset{}
  }

  /** Where message m for session s is: still to be looked at, posted, enqueued
      (and then written, dropped or queued), or lost with the session. */
  function Copies(mail: Mail, conns: Conns, s: SessionId, m: Msg): nat {
    Bit(m in mail.waiting && s in mail.waiting[m]) + mail.posted[(s, m)]
    + Enqueued(conns, s)[m] + Bit((s, m) in mail.lost)
  }

  /** Each addressed message is in exactly one place, any other in none. */
  ghost predicate Accounted(mail: Mail, conns: Conns) {
    forall s, m :: Copies(mail, conns, s, m) == Bit(m in mail.targets && s in mail.targets[m])
  }

  ghost predicate Inv(sys: System) {
    && sys.bound.AtMost? && sys.bound.n >= 1
    && Membership(sys.rooms, sys.conns)
    && ConnsOk(sys.bound, sys.clock, sys.conns)
    && TimesOk(sys.mail, sys.clock) && TargetsOk(sys.mail, sys.conns)
    && Accounted(sys.mail, sys.conns)
  }

  lemma InitInv(prefix: string, configured: int)
    ensures Inv(Init(prefix, configured))
  {}

  // ------------------------------------------------- what the parts depend on

  lemma MembershipSame(rooms: Rooms, r: Rooms, conns: Conns)
    requires Membership(rooms, conns) && forall id :: Members(r, id) == Members(rooms, id)
    ensures Membership(r, conns)
  {}

  lemma MembershipChanged(sys: System, s: SessionId, c: Conn)
    requires Membership(sys.rooms, sys.conns)
    requires if s in sys.conns then c.stream == sys.conns[s].stream && !c.life.Accepting? else c.life.Accepting?
    ensures Membership(Change(sys, s, c).rooms, Change(sys, s, c).conns)
  {
    forall i ensures Members(Joined(sys.rooms, c.stream, s), i) ==
                       (if i == c.stream then Members(sys.rooms, i) + {s} else Members(sys.rooms, i))
                  && Members(Left(sys.rooms, c.stream, s), i) ==
                       (if i == c.stream then Members(sys.rooms, i) - {s} else Members(sys.rooms, i))
    {
      MembersAfter(sys.rooms, c.stream, s, i);
    }
    hide Members, Joined, Left;
  }

  lemma MembershipQueue(rooms: Rooms, conns: Conns, s: SessionId, q: Queue<Msg>)
    requires Membership(rooms, conns) && s in conns
    ensures Membership(rooms, conns[s := conns[s].(queue := q)])
  {}

  lemma ConnsLater(bound: Bound, now: nat, conns: Conns)
    requires ConnsOk(bound, now, conns)
    ensures ConnsOk(bound, now + 1, conns)
  {
    hide Consistent, NewestKept;
  }

  lemma ConnsChanged(bound: Bound, now: nat, conns: Conns, s: SessionId, c: Conn)
    requires ConnsOk(bound, now, conns) && ConnOk(bound, now + 1, c)
    ensures ConnsOk(bound, now + 1, conns[s := c])
  {
    hide Consistent, NewestKept;
  }

  /** The times stay right when they are not touched. */
  lemma TimesLater(mail: Mail, now: nat)
    requires TimesOk(mail, now)
    ensures TimesOk(mail, now + 1)
  {}

  /** A session may change as long as those already addressed stay as they were. */
  lemma TargetsChanged(mail: Mail, now: nat, conns: Conns, s: SessionId, c: Conn)
    requires TimesOk(mail, now) && TargetsOk(mail, conns)
    requires s in conns && conns[s].accepts == 1 ==>
               c.stream == conns[s].stream && c.accepts == 1 && c.joinedAt == conns[s].joinedAt
    ensures TargetsOk(mail, conns[s := c])
  {}

  /** Accounts move from one mail and session table to another copy by copy. */
  lemma AccountedMoved(mail: Mail, conns: Conns, r: Mail, rc: Conns)
    requires Accounted(mail, conns) && r.targets == mail.targets
    requires forall s, m :: Copies(r, rc, s, m) == Copies(mail, conns, s, m)
    ensures Accounted(r, rc)
  {
    hide Copies;
    forall s, m ensures Copies(r, rc, s, m) == Bit(m in r.targets && s in r.targets[m]) {
      assert Copies(r, rc, s, m) == Copies(mail, conns, s, m);
    }
  }

  lemma AccountedChanged(mail: Mail, conns: Conns, s: SessionId, c: Conn)
    requires Accounted(mail, conns) && multiset(c.queue.enqueued) == Enqueued(conns, s)
    ensures Accounted(mail, conns[s := c])
  {
    forall t, m ensures Copies(mail, conns[s := c], t, m) == Copies(mail, conns, t, m) {
      assert Enqueued(conns[s := c], t) == Enqueued(conns, t);
    }
    AccountedMoved(mail, conns, mail, conns[s := c]);
  }

  // ------------------------------------------------------------- step by step

  lemma PublishedTimes(mail: Mail, conns: Conns, id: StreamId, now: nat)
    requires TimesOk(mail, now) && TargetsOk(mail, conns)
    ensures TimesOk(Published(mail, id, now), now + 1) && TargetsOk(Published(mail, id, now), conns)
  {
    hide Addressed;
  }

  lemma PublishedAccounted(mail: Mail, conns: Conns, id: StreamId, now: nat)
    requires Accounted(mail, conns)
    ensures Accounted(Published(mail, id, now), conns)
  {
    hide Copies, Accounted;
    var r := Published(mail, id, now);
    forall s, m ensures Copies(r, conns, s, m) == Copies(mail, conns, s, m) {
      CopiesOnlyMoved(mail, r, conns, s, m);
    }
    AccountedMoved(mail, conns, r, conns);
  }

  lemma PublishInv(sys: System, id: StreamId)
    requires Inv(sys)
    ensures Inv(Take(sys, Publish(id)))
  {
    hide Membership, ConnsOk, TimesOk, TargetsOk, Accounted, Members, Published;
    forall i ensures Members(Touch(sys.rooms, id), i) == Members(sys.rooms, i) { MembersAfter(sys.rooms, id, 0, i); }
    MembershipSame(sys.rooms, Touch(sys.rooms, id), sys.conns);
    ConnsLater(sys.bound, sys.clock, sys.conns);
    TimesLater(sys.mail, sys.clock);
    PublishedTimes(sys.mail, sys.conns, id, sys.clock);
    PublishedAccounted(sys.mail, sys.conns, id, sys.clock);
  }

  lemma CopiesOnlyMoved(mail: Mail, r: Mail, conns: Conns, s: SessionId, m: Msg)
    requires r.waiting == mail.waiting && r.posted == mail.posted && r.lost == mail.lost
    ensures Copies(r, conns, s, m) == Copies(mail, conns, s, m)
  {}

  lemma SnapshotTargets(mail: Mail, conns: Conns, rooms: Rooms, bound: Bound, m: Msg, now: nat)
    requires TimesOk(mail, now) && TargetsOk(mail, conns)
    requires Membership(rooms, conns) && ConnsOk(bound, now, conns)
    ensures TargetsOk(Snapped(mail, m, Members(rooms, m.stream), now), conns)
  {
    forall s | s in Members(rooms, m.stream) ensures Addressed(conns, m, now, s) {
      hide Consistent, NewestKept;
      assert ConnOk(bound, now, conns[s]);
    }
    hide Membership, ConnsOk, Members;
  }

  lemma SnapshotTimes(mail: Mail, m: Msg, v: set<SessionId>, now: nat)
    requires TimesOk(mail, now) && m in mail.checked
    ensures TimesOk(Snapped(mail, m, v, now), now + 1)
  {}

  lemma SnapshotCopies(mail: Mail, conns: Conns, m: Msg, v: set<SessionId>, now: nat, s: SessionId, n: Msg)
    requires m !in mail.targets && mail.targets.Keys == mail.waiting.Keys
    requires Copies(mail, conns, s, m) == 0
    requires Copies(mail, conns, s, n) == Bit(n in mail.targets && s in mail.targets[n])
    ensures var r := Snapped(mail, m, v, now); Copies(r, conns, s, n) == Bit(n in r.targets && s in r.targets[n])
  {
    hide Enqueued;
    assert m !in mail.waiting;
  }

  lemma SnapshotAccounted(mail: Mail, conns: Conns, m: Msg, v: set<SessionId>, now: nat)
    requires TimesOk(mail, now) && Accounted(mail, conns) && m in mail.checked
    ensures Accounted(Snapped(mail, m, v, now), conns)
  {
    hide Copies;
    var r := Snapped(mail, m, v, now);
    assert m !in mail.targets && mail.targets.Keys == mail.waiting.Keys;
    hide TimesOk;
    forall s, n ensures Copies(r, conns, s, n) == Bit(n in r.targets && s in r.targets[n]) {
      assert Copies(mail, conns, s, m) == 0;
      assert Copies(mail, conns, s, n) == Bit(n in mail.targets && s in mail.targets[n]);
      SnapshotCopies(mail, conns, m, v, now, s, n);
    }
  }

  lemma SnapshotInv(sys: System, m: Msg)
    requires Inv(sys) && Enabled(sys, Snapshot(m))
    ensures Inv(Take(sys, Snapshot(m)))
  {
    var v := Members(sys.rooms, m.stream);
    hide Accounted, TimesOk, TargetsOk, Membership, ConnsOk;
    SnapshotTimes(sys.mail, m, v, sys.clock);
    MembershipSame(sys.rooms, Touch(sys.rooms, m.stream), sys.conns);
    ConnsLater(sys.bound, sys.clock, sys.conns);
    SnapshotTargets(sys.mail, sys.conns, sys.rooms, sys.bound, m, sys.clock);
    SnapshotAccounted(sys.mail, sys.conns, m, v, sys.clock);
  }

  lemma PostCopies(mail: Mail, conns: Conns, m: Msg, s: SessionId)
    requires Accounted(mail, conns) && m in mail.waiting && s in mail.waiting[m]
    ensures Accounted(Posted(mail, m, s), conns)
  {
    forall t, n ensures Copies(Posted(mail, m, s), conns, t, n) == Copies(mail, conns, t, n) {}
    AccountedMoved(mail, conns, Posted(mail, m, s), conns);
  }

  lemma ExpireCopies(mail: Mail, conns: Conns, m: Msg, s: SessionId)
    requires Accounted(mail, conns) && m in mail.waiting && s in mail.waiting[m]
    ensures Accounted(Expired(mail, m, s), conns)
  {
    assert Copies(mail, conns, s, m) == Bit(m in mail.targets && s in mail.targets[m]);
    forall t, n ensures Copies(Expired(mail, m, s), conns, t, n) == Copies(mail, conns, t, n) {}
    AccountedMoved(mail, conns, Expired(mail, m, s), conns);
  }

  lemma PostedTimes(mail: Mail, conns: Conns, m: Msg, s: SessionId, now: nat)
    requires TimesOk(mail, now) && TargetsOk(mail, conns) && m in mail.waiting
    ensures TimesOk(Posted(mail, m, s), now + 1) && TargetsOk(Posted(mail, m, s), conns)
    ensures TimesOk(Expired(mail, m, s), now + 1) && TargetsOk(Expired(mail, m, s), conns)
  {
    hide Addressed;
    assert mail.waiting[m := mail.waiting[m] - {s}].Keys == mail.waiting.Keys;
  }

  lemma PostInv(sys: System, m: Msg, s: SessionId)
    requires Inv(sys) && Enabled(sys, Post(m, s))
    ensures Inv(Take(sys, Post(m, s)))
  {
    hide Accounted, Membership, ConnsOk, TimesOk, TargetsOk, Posted;
    PostCopies(sys.mail, sys.conns, m, s);
    PostedTimes(sys.mail, sys.conns, m, s, sys.clock);
    ConnsLater(sys.bound, sys.clock, sys.conns);
  }

  lemma ExpireInv(sys: System, m: Msg, s: SessionId)
    requires Inv(sys) && Enabled(sys, Expire(m, s))
    ensures Inv(Take(sys, Expire(m, s)))
  {
    hide Accounted, Membership, ConnsOk, TimesOk, TargetsOk, Expired;
    ExpireCopies(sys.mail, sys.conns, m, s);
    PostedTimes(sys.mail, sys.conns, m, s, sys.clock);
    ConnsLater(sys.bound, sys.clock, sys.conns);
  }

  lemma OneConn(bound: Bound, now: nat, conns: Conns, s: SessionId)
    requires ConnsOk(bound, now, conns) && s in conns
    ensures ConnOk(bound, now, conns[s])
  {
    hide ConnOk;
  }

  /** A session goes on with another queue. */
  lemma ConnQueue(bound: Bound, now: nat, c: Conn, q: Queue<Msg>)
    requires ConnOk(bound, now, c) && Consistent(q) && NewestKept(q) && q.max == c.queue.max
    ensures ConnOk(bound, now + 1, c.(queue := q))
  {
    hide Consistent, NewestKept;
  }

  lemma ConnParts(bound: Bound, now: nat, c: Conn)
    requires ConnOk(bound, now, c)
    ensures Consistent(c.queue) && NewestKept(c.queue)
  {
    hide Consistent, NewestKept;
  }

  lemma SendKept(q: Queue<Msg>, m: Msg)
    ensures NewestKept(Send(q, m)) && Send(q, m).enqueued == q.enqueued + [m] && Send(q, m).max == q.max
  {}

  lemma SendConn(bound: Bound, now: nat, c: Conn, m: Msg)
    requires ConnOk(bound, now, c)
    ensures ConnOk(bound, now + 1, c.(queue := Send(c.queue, m)))
    ensures Send(c.queue, m).enqueued == c.queue.enqueued + [m]
  {
    hide ConnOk, Consistent, NewestKept, Send;
    ConnParts(bound, now, c);
    SendConsistent(c.queue, m);
    SendKept(c.queue, m);
    ConnQueue(bound, now, c, Send(c.queue, m));
  }

  lemma DoneConn(bound: Bound, now: nat, c: Conn)
    requires ConnOk(bound, now, c) && c.queue.writing && c.queue.queue != []
    ensures ConnOk(bound, now + 1, c.(queue := WriteDone(c.queue)))
    ensures WriteDone(c.queue).enqueued == c.queue.enqueued
  {
    hide ConnOk, Consistent, NewestKept, WriteDone, Cut;
    ConnParts(bound, now, c);
    StepConsistent(c.queue, Completion);
    StepKeepsNewest(c.queue, Completion);
    WriteDoneFields(c.queue);
    ConnQueue(bound, now, c, WriteDone(c.queue));
  }

  lemma RunSendInv(sys: System, s: SessionId, m: Msg)
    requires Inv(sys) && Enabled(sys, RunSend(s, m))
    ensures Inv(Take(sys, RunSend(s, m)))
  {
    hide Accounted, TimesOk, TargetsOk, Membership, ConnsOk, ConnOk, Send, Taken;
    var c, now := sys.conns[s], sys.clock;
    var d := c.(queue := Send(c.queue, m));
    OneConn(sys.bound, now, sys.conns, s);
    SendConn(sys.bound, now, c, m);
    MembershipQueue(sys.rooms, sys.conns, s, d.queue);
    ConnsChanged(sys.bound, now, sys.conns, s, d);
    TargetsChanged(sys.mail, now, sys.conns, s, d);
    TakenAccounted(sys.mail, sys.conns, s, m, d);
    TakenMail(sys.mail, sys.conns[s := d], s, m, now);
  }

  lemma TakenMail(mail: Mail, conns: Conns, s: SessionId, m: Msg, now: nat)
    requires TimesOk(mail, now) && TargetsOk(mail, conns)
    ensures TimesOk(Taken(mail, m, s), now + 1) && TargetsOk(Taken(mail, m, s), conns)
  {
    hide Addressed;
  }

  /** Running the handler moves one copy from the posted to the enqueued. */
  lemma TakenCopies(mail: Mail, conns: Conns, s: SessionId, m: Msg, d: Conn, t: SessionId, n: Msg)
    requires s in conns && (s, m) in mail.posted
    requires d.queue.enqueued == conns[s].queue.enqueued + [m]
    ensures Copies(Taken(mail, m, s), conns[s := d], t, n) == Copies(mail, conns, t, n)
  {
    TakenEnqueued(conns, s, m, d, t);
    hide Enqueued;
  }

  lemma TakenEnqueued(conns: Conns, s: SessionId, m: Msg, d: Conn, t: SessionId)
    requires s in conns && d.queue.enqueued == conns[s].queue.enqueued + [m]
    ensures Enqueued(conns[s := d], t) == Enqueued(conns, t) + (if t == s then multiset{m} else multiset{})
  {}

  lemma TakenAccounted(mail: Mail, conns: Conns, s: SessionId, m: Msg, d: Conn)
    requires Accounted(mail, conns) && s in conns && (s, m) in mail.posted
    requires d.queue.enqueued == conns[s].queue.enqueued + [m]
    ensures Accounted(Taken(mail, m, s), conns[s := d])
  {
    hide Copies, Accounted;
    var r := Taken(mail, m, s);
    forall t, n ensures Copies(r, conns[s := d], t, n) == Copies(mail, conns, t, n) {
      TakenCopies(mail, conns, s, m, d, t, n);
    }
    AccountedMoved(mail, conns, r, conns[s := d]);
  }

  /** The steps that change one session and enqueue nothing. */
  lemma SessionInv(sys: System, s: SessionId, c: Conn)
    requires Inv(sys) && ConnOk(sys.bound, sys.clock + 1, c)
    requires multiset(c.queue.enqueued) == Enqueued(sys.conns, s)
    requires if s in sys.conns
             then c.stream == sys.conns[s].stream && !c.life.Accepting?
                  && (sys.conns[s].accepts == 1 ==> c.accepts == 1 && c.joinedAt == sys.conns[s].joinedAt)
             else c.life.Accepting?
    ensures Inv(Change(sys, s, c).(clock := sys.clock + 1))
  {
    MembershipChanged(sys, s, c);
    hide ConnOk, Membership;
    ConnsChanged(sys.bound, sys.clock, sys.conns, s, c);
    TimesLater(sys.mail, sys.clock);
    TargetsChanged(sys.mail, sys.clock, sys.conns, s, c);
    AccountedChanged(sys.mail, sys.conns, s, c);
    hide Accounted, TimesOk, TargetsOk, ConnsOk;
  }

  lemma WriteOkInv(sys: System, s: SessionId)
    requires Inv(sys) && Enabled(sys, WriteOk(s))
    ensures Inv(Take(sys, WriteOk(s)))
  {
    hide Accounted, TimesOk, TargetsOk, Membership, ConnsOk, ConnOk, WriteDone;
    var c := sys.conns[s];
    var d := c.(queue := WriteDone(c.queue));
    OneConn(sys.bound, sys.clock, sys.conns, s);
    DoneConn(sys.bound, sys.clock, c);
    MembershipQueue(sys.rooms, sys.conns, s, d.queue);
    ConnsChanged(sys.bound, sys.clock, sys.conns, s, d);
    TimesLater(sys.mail, sys.clock);
    TargetsChanged(sys.mail, sys.clock, sys.conns, s, d);
    AccountedChanged(sys.mail, sys.conns, s, d);
  }

  lemma WriteErrorInv(sys: System, s: SessionId)
    requires Inv(sys) && Enabled(sys, WriteError(s))
    ensures Inv(Take(sys, WriteError(s)))
  {
    var c := sys.conns[s];
    assert ConnOk(sys.bound, sys.clock, c);
    WriteFailConsistent(c.queue);
    SessionInv(sys, s, c.(queue := WriteFail(c.queue), life := Closed));
  }

  lemma AdmitInv(sys: System, s: SessionId, target: string)
    requires Inv(sys) && Enabled(sys, Admit(s, target))
    ensures Inv(Take(sys, Admit(s, target)))
  {
    EmptyConsistent<Msg>(sys.bound);
    SessionInv(sys, s, Conn(Requested(sys, target), Accepting, false, 0, 0, Empty(sys.bound)));
  }

  function Opened(c: Conn, now: nat): Conn {
    c.(life := Open, reading := true, accepts := c.accepts + 1, joinedAt := now)
  }

  lemma OpenedOk(bound: Bound, now: nat, conns: Conns, s: SessionId)
    requires ConnsOk(bound, now, conns) && s in conns && conns[s].life.Accepting?
    ensures conns[s].accepts == 0 && ConnOk(bound, now + 1, Opened(conns[s], now))
    ensures multiset(Opened(conns[s], now).queue.enqueued) == Enqueued(conns, s)
  {
    assert ConnOk(bound, now, conns[s]);
  }

  lemma AcceptedInv(sys: System, s: SessionId)
    requires Inv(sys) && Enabled(sys, Accept(s, true))
    ensures Inv(Take(sys, Accept(s, true)))
  {
    hide Membership, ConnsOk, TimesOk, TargetsOk, Accounted, ConnOk, Enqueued;
    OpenedOk(sys.bound, sys.clock, sys.conns, s);
    hide Inv;
    SessionInv(sys, s, Opened(sys.conns[s], sys.clock));
    assert Take(sys, Accept(s, true)) == Change(sys, s, Opened(sys.conns[s], sys.clock)).(clock := sys.clock + 1);
  }

  lemma RefusedInv(sys: System, s: SessionId)
    requires Inv(sys) && Enabled(sys, Accept(s, false))
    ensures Inv(Take(sys, Accept(s, false)))
  {
    assert ConnOk(sys.bound, sys.clock, sys.conns[s]);
    SessionInv(sys, s, sys.conns[s].(life := Closed));
  }

  lemma ReadErrorInv(sys: System, s: SessionId)
    requires Inv(sys) && Enabled(sys, ReadError(s))
    ensures Inv(Take(sys, ReadError(s)))
  {
    assert ConnOk(sys.bound, sys.clock, sys.conns[s]);
    SessionInv(sys, s, sys.conns[s].(reading := false, life := Closed));
  }

  lemma StepInv(sys: System, a: Action)
    requires Inv(sys)
    ensures Inv(Take(sys, a))
  {
    if Enabled(sys, a) {
      hide Inv, Next;
      match a
      case Publish(id) => PublishInv(sys, id);
      case Snapshot(m) => SnapshotInv(sys, m);
      case Post(m, s) => PostInv(sys, m, s);
      case Expire(m, s) => ExpireInv(sys, m, s);
      case RunSend(s, m) => RunSendInv(sys, s, m);
      case WriteOk(s) => WriteOkInv(sys, s);
      case WriteError(s) => WriteErrorInv(sys, s);
      case Admit(s, target) => AdmitInv(sys, s, target);
      case Accept(s, true) => AcceptedInv(sys, s);
      case Accept(s, false) => RefusedInv(sys, s);
      case ReadError(s) => ReadErrorInv(sys, s);
    }
  }

  lemma {:induction false} RunInv(sys: System, run: seq<Action>)
    requires Inv(sys)
    ensures Inv(TakeAll(sys, run))
    decreases |run|
  {
    if run == [] {
    } else {
      StepInv(sys, run[0]);
      hide Inv, Take;
      RunInv(Take(sys, run[0]), run[1..]);
    }
  }

  // --------------------------------------------------------------- main theorems

  function Reached(prefix: string, configured: int, run: seq<Action>): System {
    TakeAll(Init(prefix, configured), run)
  }

  lemma ReachedInv(prefix: string, configured: int, run: seq<Action>)
    ensures Inv(Reached(prefix, configured, run))
  {
    InitInv(prefix, configured);
    RunInv(Init(prefix, configured), run);
  }

  /** What was enqueued for a session was addressed to it, and was enqueued once. */
  lemma EnqueuedOnce(sys: System, s: SessionId, m: Msg)
    requires Inv(sys)
    ensures Enqueued(sys.conns, s)[m] <= 1
    ensures Enqueued(sys.conns, s)[m] + sys.mail.posted[(s, m)] > 0 ==>
              m in sys.mail.targets && s in sys.mail.targets[m] && Addressed(sys.conns, m, sys.mail.snapshotAt[m], s)
  {
    assert Copies(sys.mail, sys.conns, s, m) == Bit(m in sys.mail.targets && s in sys.mail.targets[m]);
  }

  /** Broadcast safety.  In every reachable state, whatever was enqueued for a
      session was published under the session's own stream, in a snapshot taken
      after it joined, and was enqueued once; what was written is among it, and
      written and queued messages keep the order in which DoSend ran. */
  lemma BroadcastSafety(prefix: string, configured: int, run: seq<Action>, s: SessionId)
    requires s in Reached(prefix, configured, run).conns
    ensures var sys := Reached(prefix, configured, run);
      var c := sys.conns[s];
      && (forall m :: m in c.queue.enqueued ==>
            && m.stream == c.stream && m in sys.mail.publishedAt && m in sys.mail.snapshotAt
            && c.accepts == 1 && c.joinedAt < sys.mail.snapshotAt[m])
      && (forall m :: multiset(c.queue.enqueued)[m] <= 1)
      && multiset(WrittenBy(c.queue)) <= multiset(c.queue.enqueued)
      && Subsequence(WrittenBy(c.queue) + c.queue.queue, c.queue.enqueued)
  {
    var sys := Reached(prefix, configured, run);
    var c := sys.conns[s];
    ReachedInv(prefix, configured, run);
    forall m ensures multiset(c.queue.enqueued)[m] <= 1 {
      EnqueuedOnce(sys, s, m);
    }
    forall m | m in c.queue.enqueued
      ensures m in sys.mail.targets && Addressed(sys.conns, m, sys.mail.snapshotAt[m], s)
    {
      assert m in multiset(c.queue.enqueued);
      EnqueuedOnce(sys, s, m);
    }
    assert ConnOk(sys.bound, sys.clock, c);
    QueueHistory(c.queue);
    hide Reached, Membership, ConnsOk, TargetsOk, Accounted, WrittenOf, Subsequence;
  }

  lemma QueueHistory(q: Queue<Msg>)
    requires Consistent(q)
    ensures Subsequence(WrittenBy(q) + q.queue, q.enqueued)
    ensures multiset(q.enqueued) == multiset(WrittenBy(q)) + multiset(DroppedOf(q.departed)) + multiset(q.queue)
  {
    WrittenIsSubsequence(q.departed);
    SubsequenceAppend(WrittenBy(q), Messages(q.departed), q.queue);
    WrittenOrDropped(q.departed);
  }

  /** No message is lost track of: in every reachable state each message of a
      snapshot is, for each session of the snapshot, in exactly one of the places
      waiting, posted, queued, written, dropped, lost with a closed session. */
  lemma EndToEndConservation(prefix: string, configured: int, run: seq<Action>, m: Msg, s: SessionId)
    requires var sys := Reached(prefix, configured, run);
      m in sys.mail.targets && s in sys.mail.targets[m]
    ensures var sys := Reached(prefix, configured, run);
      s in sys.conns && m in sys.mail.waiting &&
      var q := sys.conns[s].queue;
      Bit(s in sys.mail.waiting[m]) + sys.mail.posted[(s, m)] + multiset(q.queue)[m]
        + multiset(WrittenBy(q))[m] + multiset(DroppedOf(q.departed))[m] + Bit((s, m) in sys.mail.lost) == 1
  {
    var sys := Reached(prefix, configured, run);
    ReachedInv(prefix, configured, run);
    assert Addressed(sys.conns, m, sys.mail.snapshotAt[m], s);
    assert Copies(sys.mail, sys.conns, s, m) == 1;
    assert ConnOk(sys.bound, sys.clock, sys.conns[s]);
    QueueHistory(sys.conns[s].queue);
    hide Reached, Membership, ConnsOk, TargetsOk, Accounted, WrittenOf, DroppedOf, Subsequence;
  }

  /** A session is in a room exactly while it is open, its own room only; it is
      accepted at most once. */
  lemma MembershipAlways(prefix: string, configured: int, run: seq<Action>, id: StreamId, s: SessionId)
    ensures var sys := Reached(prefix, configured, run);
      && (s in Members(sys.rooms, id) <==> s in sys.conns && sys.conns[s].stream == id && sys.conns[s].life.Open?)
      && (s in sys.conns ==> sys.conns[s].accepts <= 1)
  {
    ReachedInv(prefix, configured, run);
    var sys := Reached(prefix, configured, run);
    if s in sys.conns { assert ConnOk(sys.bound, sys.clock, sys.conns[s]); }
    hide Reached, ConnsOk, TargetsOk, TimesOk, Accounted;
  }

  /** Once closed, by whichever error came first, a session never is in a room
      again, however many further errors close it again. */
  lemma {:induction false} ClosedForGood(sys: System, run: seq<Action>, s: SessionId)
    requires Inv(sys) && s in sys.conns && sys.conns[s].life.Closed?
    ensures var r := TakeAll(sys, run);
      s in r.conns && r.conns[s].life.Closed? && forall id :: s !in Members(r.rooms, id)
    decreases |run|
  {
    if run == [] {
      hide ConnsOk, TargetsOk, TimesOk, Accounted;
    } else {
      StepInv(sys, run[0]);
      StaysClosed(sys, run[0], s);
      hide Inv, Take, Members;
      ClosedForGood(Take(sys, run[0]), run[1..], s);
    }
  }

  lemma StaysClosed(sys: System, a: Action, s: SessionId)
    requires s in sys.conns && sys.conns[s].life.Closed?
    ensures s in Take(sys, a).conns && Take(sys, a).conns[s].life.Closed?
  {
    hide Send, WriteDone, WriteFail;
  }

  /** The step is a failure of session s: of its handshake, a write or a read. */
  predicate Fails(sys: System, a: Action, s: SessionId) {
    Enabled(sys, a) && (a == WriteError(s) || a == ReadError(s) || a == Accept(s, false))
  }

  lemma FailureCloses(sys: System, a: Action, s: SessionId)
    requires Fails(sys, a, s)
    ensures s in Take(sys, a).conns && Take(sys, a).conns[s].life.Closed?
  {
    hide WriteFail, Left;
  }

  /** A failed write, read or handshake takes the session out of every room, and no
      later step brings it back into one. */
  lemma LeavesForGood(sys: System, a: Action, s: SessionId, run: seq<Action>)
    requires Inv(sys) && Fails(sys, a, s)
    ensures forall id :: s !in Members(TakeAll(Take(sys, a), run).rooms, id)
  {
    hide Inv, Take, Members;
    FailureCloses(sys, a, s);
    StepInv(sys, a);
    ClosedForGood(Take(sys, a), run, s);
  }

  /** No step of the run is a failure of session s. */
  predicate NeverFails(sys: System, run: seq<Action>, s: SessionId)
    decreases |run|
  {
    run == [] || (!Fails(sys, run[0], s) && NeverFails(Take(sys, run[0]), run[1..], s))
  }

  lemma StaysOpen(sys: System, a: Action, s: SessionId, id: StreamId)
    requires OpenAs(sys, s, id) && !Fails(sys, a, s)
    ensures OpenAs(Take(sys, a), s, id)
  {
    hide Send, WriteDone, WriteFail, Touch, Joined, Left, Members;
  }

  predicate OpenAs(sys: System, s: SessionId, id: StreamId) {
    OfStream(sys.conns, s, id) && sys.conns[s].life.Open?
  }

  lemma {:induction false} OpenIff(sys: System, run: seq<Action>, s: SessionId, id: StreamId)
    requires Inv(sys) && OpenAs(sys, s, id)
    ensures s in Members(TakeAll(sys, run).rooms, id) <==> NeverFails(sys, run, s)
    decreases |run|
  {
    hide Inv, Take, Members, Fails;
    if run == [] {
      OpenMember(sys, s, id);
    } else if Fails(sys, run[0], s) {
      LeavesForGood(sys, run[0], s, run[1..]);
    } else {
      StepInv(sys, run[0]);
      StaysOpen(sys, run[0], s, id);
      OpenIff(Take(sys, run[0]), run[1..], s, id);
    }
  }

  lemma OpenMember(sys: System, s: SessionId, id: StreamId)
    requires Inv(sys) && OpenAs(sys, s, id)
    ensures s in Members(sys.rooms, id)
  {
    hide ConnsOk, TimesOk, TargetsOk, Accounted, Members;
  }

  lemma AcceptOpens(sys: System, s: SessionId)
    requires Enabled(sys, Accept(s, true))
    ensures OpenAs(Take(sys, Accept(s, true)), s, sys.conns[s].stream)
  {
    hide Joined;
  }

  /** From a successful accept on, whatever steps follow, the session is in its own room
      exactly as long as none of them is a failure of its own; it is in no other. */
  lemma InRoomUntilFailure(sys: System, s: SessionId, run: seq<Action>, id: StreamId)
    requires Inv(sys) && Enabled(sys, Accept(s, true))
    ensures var first := Take(sys, Accept(s, true));
      s in Members(TakeAll(first, run).rooms, id)
      <==> id == sys.conns[s].stream && NeverFails(first, run, s)
  {
    hide Inv, Take, TakeAll, Members, NeverFails;
    var first := Take(sys, Accept(s, true));
    AcceptOpens(sys, s);
    StepInv(sys, Accept(s, true));
    OpenIff(first, run, s, sys.conns[s].stream);
    StaysOfStream(first, run, s, sys.conns[s].stream);
    RunInv(first, run);
    if s in Members(TakeAll(first, run).rooms, id) { OnlyOwnRoom(TakeAll(first, run), s, id); }
  }

  lemma {:induction false} StaysOfStream(sys: System, run: seq<Action>, s: SessionId, id: StreamId)
    requires OfStream(sys.conns, s, id)
    ensures OfStream(TakeAll(sys, run).conns, s, id)
    decreases |run|
  {
    if run == [] {
    } else {
      StreamStays(sys, run[0], s);
      hide Take;
      StaysOfStream(Take(sys, run[0]), run[1..], s, id);
    }
  }

  lemma StreamStays(sys: System, a: Action, s: SessionId)
    requires s in sys.conns
    ensures s in Take(sys, a).conns && Take(sys, a).conns[s].stream == sys.conns[s].stream
  {
    hide Send, WriteDone, WriteFail, Touch, Joined, Left, Members;
  }

  lemma OnlyOwnRoom(sys: System, s: SessionId, id: StreamId)
    requires Inv(sys) && s in Members(sys.rooms, id)
    ensures OfStream(sys.conns, s, id)
  {
    hide ConnsOk, TimesOk, TargetsOk, Accounted, Members;
  }

  // ------------------------------------------------------------- every step moves

  /** A publication gets under way exactly when its room has a member, and makes the
      stream known either way. */
  lemma PublishMoves(sys: System, id: StreamId)
    requires Inv(sys)
    ensures var r, m := Take(sys, Publish(id)), Msg(id, sys.mail.nextSerial);
      && id in r.streams && (forall i :: i in r.streams ==> i == id || i in sys.streams)
      && m !in sys.mail.publishedAt
      && (m in r.mail.checked <==> Members(sys.rooms, id) != {})
      && (m in r.mail.publishedAt <==> Members(sys.rooms, id) != {})
  {
    hide ConnsOk, TargetsOk, Accounted, Membership, Members, Touch;
  }

  /** Looking at a session of the snapshot posts one handler for it; running the handler
      puts the message at the end of what its queue was sent. */
  lemma PostMoves(sys: System, m: Msg, s: SessionId)
    requires Enabled(sys, Post(m, s))
    ensures var r := Take(sys, Post(m, s));
      r.mail.posted[(s, m)] == sys.mail.posted[(s, m)] + 1 && m in r.mail.waiting && s !in r.mail.waiting[m]
  {}

  lemma RunSendMoves(sys: System, s: SessionId, m: Msg)
    requires Enabled(sys, RunSend(s, m))
    ensures var r := Take(sys, RunSend(s, m));
      && r.mail.posted[(s, m)] == sys.mail.posted[(s, m)] - 1
      && s in r.conns && r.conns[s].queue.enqueued == sys.conns[s].queue.enqueued + [m]
      && r.conns[s].queue.queue == sys.conns[s].queue.queue + [m]
  {}

  lemma WriteOkMoves(sys: System, s: SessionId)
    requires Enabled(sys, WriteOk(s))
    ensures var r, q := Take(sys, WriteOk(s)), sys.conns[s].queue;
      s in r.conns && WrittenBy(r.conns[s].queue) == WrittenBy(q) + [q.queue[0]]
  {
    hide WriteDone, WrittenOf;
    WriteDoneEffect(sys.conns[s].queue);
  }

  lemma AdmitMoves(sys: System, s: SessionId, id: StreamId)
    requires s !in sys.conns && id in sys.streams
    ensures var a := Admit(s, sys.prefix + id); var r := Take(sys, a);
      Enabled(sys, a) && OfStream(r.conns, s, id) && r.conns[s].life.Accepting? && Enabled(r, Accept(s, true))
  {
    assert (sys.prefix + id)[|sys.prefix|..] == id;
  }

  /** Wherever a message for a session is, the step that takes it further can be taken,
      unless a write of the session has failed. */
  lemma NeverStuck(prefix: string, configured: int, run: seq<Action>, m: Msg, s: SessionId)
    requires var sys := Reached(prefix, configured, run); m in sys.mail.targets && s in sys.mail.targets[m]
    ensures var sys := Reached(prefix, configured, run);
      && s in sys.conns && m in sys.mail.waiting
      && (s in sys.mail.waiting[m] ==> Enabled(sys, Post(m, s)))
      && (s in sys.mail.waiting[m] && sys.conns[s].life.Closed? ==> Enabled(sys, Expire(m, s)))
      && ((s, m) in sys.mail.posted ==> Enabled(sys, RunSend(s, m)))
      && (m in sys.conns[s].queue.queue && !sys.conns[s].queue.failed ==>
            Enabled(sys, WriteOk(s)) && Enabled(sys, WriteError(s)))
  {
    hide Reached, Inv;
    ReachedInv(prefix, configured, run);
    var sys := Reached(prefix, configured, run);
    TargetKnown(sys, m, s);
    if m in sys.conns[s].queue.queue { WriteUnderWay(sys, s); }
  }

  lemma TargetKnown(sys: System, m: Msg, s: SessionId)
    requires Inv(sys) && m in sys.mail.targets && s in sys.mail.targets[m]
    ensures s in sys.conns && m in sys.mail.waiting
  {
    hide Membership, ConnsOk, Accounted, Members;
    assert Addressed(sys.conns, m, sys.mail.snapshotAt[m], s);
  }

  lemma WriteUnderWay(sys: System, s: SessionId)
    requires Inv(sys) && s in sys.conns && sys.conns[s].queue.queue != []
    ensures sys.conns[s].queue.writing || sys.conns[s].queue.failed
  {
    hide Membership, TimesOk, TargetsOk, Accounted, Members, Messages, WrittenOf, NewestKept;
    assert ConnOk(sys.bound, sys.clock, sys.conns[s]);
  }

  lemma ChangeMail(sys: System, s: SessionId, c: Conn)
    ensures Change(sys, s, c).mail == sys.mail
  {}

  lemma TargetsStay(sys: System, a: Action, m: Msg)
    requires m in sys.mail.targets && m !in sys.mail.checked
    ensures m in Take(sys, a).mail.targets && Take(sys, a).mail.targets[m] == sys.mail.targets[m]
  {
    hide Send, WriteDone, WriteFail, Touch, Members, Change, Opened, Empty;
    match a
    case WriteError(s) =>
      if Enabled(sys, a) {
        ChangeMail(sys, s, sys.conns[s].(queue := WriteFail(sys.conns[s].queue), life := Closed));
      }
    case Admit(s, target) =>
      if Enabled(sys, a) {
        ChangeMail(sys, s, Conn(Requested(sys, target), Accepting, false, 0, 0, Empty(sys.bound)));
      }
    case Accept(s, ok) =>
      if Enabled(sys, a) {
        ChangeMail(sys, s, if ok then Opened(sys.conns[s], sys.clock) else sys.conns[s].(life := Closed));
      }
    case ReadError(s) =>
      if Enabled(sys, a) { ChangeMail(sys, s, sys.conns[s].(reading := false, life := Closed)); }
    case _ =>
  }

  lemma {:induction false} TargetsKept(sys: System, run: seq<Action>, m: Msg)
    requires Inv(sys) && m in sys.mail.targets
    ensures m in TakeAll(sys, run).mail.targets && TakeAll(sys, run).mail.targets[m] == sys.mail.targets[m]
    decreases |run|
  {
    if run == [] {
    } else {
      hide Take;
      StepInv(sys, run[0]);
      TargetsStay(sys, run[0], m);
      hide Inv;
      TargetsKept(Take(sys, run[0]), run[1..], m);
    }
  }

  /** The broadcast is complete: whatever follows a snapshot, the message stays addressed
      to exactly the sessions that were in the stream's room then. */
  lemma AddressedToTheRoom(sys: System, m: Msg, run: seq<Action>)
    requires Inv(sys) && Enabled(sys, Snapshot(m))
    ensures var r := TakeAll(Take(sys, Snapshot(m)), run);
      m in r.mail.targets && r.mail.targets[m] == Members(sys.rooms, m.stream)
  {
    StepInv(sys, Snapshot(m));
    AfterSnapshot(sys, m);
    hide Inv, Take, TakeAll, Members;
    TargetsKept(Take(sys, Snapshot(m)), run, m);
  }

  // ------------------------------------------------------------------ isolation

  /** The step is about stream id. */
  predicate Concerns(sys: System, a: Action, id: StreamId) {
    Enabled(sys, a) &&
    match a
    case Publish(i) => i == id
    case Snapshot(m) => m.stream == id
    case Post(m, _) => m.stream == id
    case Expire(m, _) => m.stream == id
    case RunSend(_, m) => m.stream == id
    case WriteOk(s) => sys.conns[s].stream == id
    case WriteError(s) => sys.conns[s].stream == id
    case Admit(_, target) => Requested(sys, target) == id
    case Accept(s, _) => sys.conns[s].stream == id
    case ReadError(s) => sys.conns[s].stream == id
  }

  predicate OfStream(conns: Conns, s: SessionId, id: StreamId) {
    s in conns && conns[s].stream == id
  }

  /** Stream id looks the same in both: its room, its sessions, its messages. */
  ghost predicate SameRoom(sys: System, r: System, id: StreamId) {
    && Members(sys.rooms, id) == Members(r.rooms, id)
    && (forall s :: OfStream(sys.conns, s, id) <==> OfStream(r.conns, s, id))
    && (forall s :: OfStream(sys.conns, s, id) ==> sys.conns[s] == r.conns[s])
  }

  ghost predicate SameMail(mail: Mail, r: Mail, id: StreamId) {
    && (forall m: Msg :: m.stream == id ==> (m in mail.checked <==> m in r.checked))
    && (forall m: Msg :: m.stream == id ==>
          && (m in mail.targets <==> m in r.targets) && (m in mail.waiting <==> m in r.waiting)
          && (m in mail.targets ==> mail.targets[m] == r.targets[m])
          && (m in mail.waiting ==> mail.waiting[m] == r.waiting[m]))
    && (forall m: Msg, s :: m.stream == id ==> mail.posted[(s, m)] == r.posted[(s, m)])
  }

  lemma ChangeElsewhere(sys: System, s: SessionId, c: Conn, id: StreamId)
    requires c.stream != id && !OfStream(sys.conns, s, id)
    ensures SameRoom(sys, Change(sys, s, c).(clock := sys.clock + 1), id)
  {
    MembersAfter(sys.rooms, c.stream, s, id);
    hide Members;
  }

  lemma QueueElsewhere(sys: System, r: System, s: SessionId, q: Queue<Msg>, id: StreamId)
    requires s in sys.conns && sys.conns[s].stream != id
    requires r.rooms == sys.rooms && r.conns == sys.conns[s := sys.conns[s].(queue := q)]
    ensures SameRoom(sys, r, id)
  {}

  lemma NoSessionTouched(sys: System, r: System, id: StreamId)
    requires r.conns == sys.conns && Members(r.rooms, id) == Members(sys.rooms, id)
    ensures SameRoom(sys, r, id)
  {}

  lemma StepSameRoom(sys: System, a: Action, id: StreamId)
    requires Inv(sys) && Enabled(sys, a) && !Concerns(sys, a, id)
    ensures SameRoom(sys, Take(sys, a), id)
  {
    var r := Take(sys, a);
    hide Inv, SameRoom, Change, Send, WriteDone, WriteFail, Members;
    match a
    case RunSend(s, m) => SentElsewhere(sys, s, m, id);
    case WriteOk(s) => QueueElsewhere(sys, r, s, WriteDone(sys.conns[s].queue), id);
    case WriteError(s) =>
      ChangeElsewhere(sys, s, sys.conns[s].(queue := WriteFail(sys.conns[s].queue), life := Closed), id);
    case Admit(s, target) =>
      ChangeElsewhere(sys, s, Conn(Requested(sys, target), Accepting, false, 0, 0, Empty(sys.bound)), id);
    case Accept(s, ok) => AcceptElsewhere(sys, s, ok, id);
    case ReadError(s) => ChangeElsewhere(sys, s, sys.conns[s].(reading := false, life := Closed), id);
    case Publish(i) =>
      MembersAfter(sys.rooms, i, 0, id);
      NoSessionTouched(sys, r, id);
    case Snapshot(m) =>
      MembersAfter(sys.rooms, m.stream, 0, id);
      NoSessionTouched(sys, r, id);
    case Post(_, _) => NoSessionTouched(sys, r, id);
    case Expire(_, _) => NoSessionTouched(sys, r, id);
  }

  /** A posted message goes to a session of its own stream. */
  lemma SentElsewhere(sys: System, s: SessionId, m: Msg, id: StreamId)
    requires Inv(sys) && Enabled(sys, RunSend(s, m)) && m.stream != id
    ensures SameRoom(sys, Take(sys, RunSend(s, m)), id)
  {
    EnqueuedOnce(sys, s, m);
    hide Inv, SameRoom, Send;
    QueueElsewhere(sys, Take(sys, RunSend(s, m)), s, Send(sys.conns[s].queue, m), id);
  }

  lemma AcceptElsewhere(sys: System, s: SessionId, ok: bool, id: StreamId)
    requires Enabled(sys, Accept(s, ok)) && sys.conns[s].stream != id
    ensures SameRoom(sys, Take(sys, Accept(s, ok)), id)
  {
    hide SameRoom, Change;
    var c := sys.conns[s];
    if ok {
      ChangeElsewhere(sys, s, Opened(c, sys.clock), id);
    } else {
      ChangeElsewhere(sys, s, c.(life := Closed), id);
    }
  }

  /** The steps on messages touch those of their own stream. */
  lemma SnappedElsewhere(mail: Mail, m: Msg, v: set<SessionId>, now: nat, id: StreamId)
    requires m.stream != id
    ensures SameMail(mail, Snapped(mail, m, v, now), id)
  {}

  lemma PostedElsewhere(mail: Mail, m: Msg, s: SessionId, id: StreamId)
    requires m.stream != id && m in mail.waiting
    ensures SameMail(mail, Posted(mail, m, s), id)
  {}

  lemma ExpiredElsewhere(mail: Mail, m: Msg, s: SessionId, id: StreamId)
    requires m.stream != id && m in mail.waiting
    ensures SameMail(mail, Expired(mail, m, s), id)
  {}

  lemma TakenElsewhere(mail: Mail, m: Msg, s: SessionId, id: StreamId)
    requires m.stream != id
    ensures SameMail(mail, Taken(mail, m, s), id)
  {}

  lemma PublishedElsewhere(mail: Mail, i: StreamId, now: nat, id: StreamId)
    requires i != id
    ensures SameMail(mail, Published(mail, i, now), id)
  {}

  lemma StepSameMail(sys: System, a: Action, id: StreamId)
    requires Enabled(sys, a) && !Concerns(sys, a, id)
    ensures SameMail(sys.mail, Take(sys, a).mail, id)
  {
    var mail, now := sys.mail, sys.clock;
    if Take(sys, a).mail != mail {
      hide SameMail, Members, Touch, Snapped, Posted, Expired, Taken, Published, Change;
      match a
      case Publish(i) => PublishedElsewhere(mail, i, now, id);
      case Snapshot(m) => SnappedElsewhere(mail, m, Members(sys.rooms, m.stream), now, id);
      case Post(m, s) => PostedElsewhere(mail, m, s, id);
      case Expire(m, s) => ExpiredElsewhere(mail, m, s, id);
      case RunSend(s, m) => TakenElsewhere(mail, m, s, id);
    }
  }

  ghost predicate NeverConcerns(sys: System, run: seq<Action>, id: StreamId)
    decreases |run|
  {
    run == [] || (!Concerns(sys, run[0], id) && NeverConcerns(Take(sys, run[0]), run[1..], id))
  }

  /** Delivery to one room never changes another: a run of steps about other
      streams leaves a stream's room, sessions, queues and messages as they were. */
  lemma {:induction false} RoomsAreIsolated(sys: System, run: seq<Action>, id: StreamId)
    requires Inv(sys) && NeverConcerns(sys, run, id)
    ensures SameRoom(sys, TakeAll(sys, run), id)
    ensures SameMail(sys.mail, TakeAll(sys, run).mail, id)
    decreases |run|
  {
    if run == [] {
    } else {
      StepInv(sys, run[0]);
      if Enabled(sys, run[0]) {
        StepSameRoom(sys, run[0], id);
        StepSameMail(sys, run[0], id);
      }
      hide Inv, Take, Concerns, Members;
      RoomsAreIsolated(Take(sys, run[0]), run[1..], id);
    }
  }

  // ------------------------------------------------------------- a late joiner

  /** Message m, addressed to s, was published before s joined. */
  ghost predicate SentEarlier(sys: System, m: Msg, s: SessionId) {
    && m in sys.mail.targets && s in sys.mail.targets[m] && m in sys.mail.publishedAt && s in sys.conns
    && sys.mail.publishedAt[m] < sys.conns[s].joinedAt
  }

  /** Publication is dated from the snapshot, not from the call of Send: in any
      state where a stream has a listener and another session is about to be
      accepted, that session can join between the Empty check and the snapshot
      and be sent a packet published before it joined. */
  lemma LateJoiner(sys: System, id: StreamId, s: SessionId)
    requires Members(sys.rooms, id) != {}
    requires OfStream(sys.conns, s, id) && sys.conns[s].life.Accepting?
    ensures var m := Msg(id, sys.mail.nextSerial);
      SentEarlier(TakeAll(sys, [Publish(id), Accept(s, true), Snapshot(m)]), m, s)
  {
    var m := Msg(id, sys.mail.nextSerial);
    hide Take, Members, TakeAll;
    var s1 := Take(sys, Publish(id));
    var s2 := Take(s1, Accept(s, true));
    AfterPublish(sys, id);
    AfterAccept(s1, s);
    AfterSnapshot(s2, m);
    ThreeSteps(sys, Publish(id), Accept(s, true), Snapshot(m));
  }

  lemma {:induction false} TakeAllAppend(sys: System, a: seq<Action>, b: seq<Action>)
    ensures TakeAll(sys, a + b) == TakeAll(TakeAll(sys, a), b)
    decreases |a|
  {
    if a == [] {
      assert a + b == b;
    } else {
      hide Take;
      assert (a + b)[1..] == a[1..] + b;
      TakeAllAppend(Take(sys, a[0]), a[1..], b);
    }
  }

  /** One session of the stream is open, another is about to be accepted. */
  function TwoCallers(prefix: string, id: StreamId): seq<Action> {
    [Publish(id), Admit(0, prefix + id), Accept(0, true)] + [Admit(1, prefix + id)]
  }

  lemma ThreeActions(sys: System, a: Action, b: Action, c: Action)
    ensures TakeAll(sys, [a, b, c]) == Take(Take(Take(sys, a), b), c)
    ensures TakeAll(sys, [a]) == Take(sys, a)
  {
    hide Take;
    ThreeSteps(sys, a, b, c);
    assert [a][1..] == [];
  }

  lemma AfterAdmit(sys: System, s: SessionId, id: StreamId)
    requires s !in sys.conns && id in sys.streams
    ensures var r := Take(sys, Admit(s, sys.prefix + id));
      && r.prefix == sys.prefix && r.streams == sys.streams && r.mail == sys.mail && r.rooms == sys.rooms
      && r.conns == sys.conns[s := Conn(id, Accepting, false, 0, 0, Empty(sys.bound))]
  {
    assert (sys.prefix + id)[|sys.prefix|..] == id;
  }

  lemma AfterAcceptFields(sys: System, s: SessionId)
    requires s in sys.conns && sys.conns[s].life.Accepting?
    ensures var r := Take(sys, Accept(s, true));
      && r.prefix == sys.prefix && r.streams == sys.streams && r.mail == sys.mail
      && r.conns.Keys == sys.conns.Keys && s in Members(r.rooms, sys.conns[s].stream)
  {}

  lemma TwoCallersReached(prefix: string, configured: int, id: StreamId)
    ensures var sys := Reached(prefix, configured, TwoCallers(prefix, id));
      && Members(sys.rooms, id) != {} && sys.mail.nextSerial == 0
      && OfStream(sys.conns, 1, id) && sys.conns[1].life.Accepting?
  {
    var s0 := Init(prefix, configured);
    var s1 := Take(s0, Publish(id));
    assert s1.prefix == prefix && id in s1.streams && s1.conns == map[] && s1.mail == s0.mail;
    hide Take, TakeAll, Members;
    AfterAdmit(s1, 0, id);
    var s2 := Take(s1, Admit(0, prefix + id));
    AfterAcceptFields(s2, 0);
    var s3 := Take(s2, Accept(0, true));
    AfterAdmit(s3, 1, id);
    ThreeActions(s0, Publish(id), Admit(0, prefix + id), Accept(0, true));
    ThreeActions(s3, Admit(1, prefix + id), Publish(id), Publish(id));
    TakeAllAppend(s0, [Publish(id), Admit(0, prefix + id), Accept(0, true)], [Admit(1, prefix + id)]);
  }

  /** And the system gets there: with any prefix, bound and stream, two sessions and
      two publications lead to a packet sent to a session from before it joined. */
  lemma LateJoinerReached(prefix: string, configured: int, id: StreamId)
    ensures var m := Msg(id, 0);
      var run := TwoCallers(prefix, id) + [Publish(id), Accept(1, true), Snapshot(m)];
      SentEarlier(Reached(prefix, configured, run), m, 1)
  {
    hide TakeAll, Members, SentEarlier;
    var m := Msg(id, 0);
    TwoCallersReached(prefix, configured, id);
    LateJoiner(Reached(prefix, configured, TwoCallers(prefix, id)), id, 1);
    TakeAllAppend(Init(prefix, configured), TwoCallers(prefix, id), [Publish(id), Accept(1, true), Snapshot(m)]);
  }

  lemma AfterPublish(sys: System, id: StreamId)
    requires Members(sys.rooms, id) != {}
    ensures var r := Take(sys, Publish(id));
      && r.mail == Published(sys.mail, id, sys.clock) && r.conns == sys.conns && r.clock == sys.clock + 1
  {}

  lemma AfterAccept(sys: System, s: SessionId)
    requires Enabled(sys, Accept(s, true))
    ensures var r := Take(sys, Accept(s, true));
      && r.mail == sys.mail && s in r.conns && r.conns[s].joinedAt == sys.clock
      && s in Members(r.rooms, sys.conns[s].stream)
  {
    var id := sys.conns[s].stream;
    MembersAfter(sys.rooms, id, s, id);
    hide Members;
  }

  lemma AfterSnapshot(sys: System, m: Msg)
    requires Enabled(sys, Snapshot(m))
    ensures var r := Take(sys, Snapshot(m));
      && r.mail == Snapped(sys.mail, m, Members(sys.rooms, m.stream), sys.clock) && r.conns == sys.conns
  {}

  lemma ThreeSteps(sys: System, a: Action, b: Action, c: Action)
    ensures TakeAll(sys, [a, b, c]) == Take(Take(Take(sys, a), b), c)
  {
    hide Take;
    var s1 := Take(sys, a);
    var s2 := Take(s1, b);
    assert [a, b, c][1..] == [b, c] && [b, c][1..] == [c] && [c][1..] == [];
    assert TakeAll(s2, [c]) == Take(s2, c);
    assert TakeAll(s1, [b, c]) == TakeAll(s2, [c]);
    assert TakeAll(sys, [a, b, c]) == TakeAll(s1, [b, c]);
  }

  /** s joined before time t, when m was published. */
  ghost predicate JoinedBefore(sys: System, m: Msg, t: nat, s: SessionId) {
    && m in sys.mail.publishedAt && sys.mail.publishedAt[m] == t
    && s in sys.conns && sys.conns[s].accepts == 1 && sys.conns[s].joinedAt < t
  }

  /** m was published at time t, and if s joined by then it is open no longer and
      m is not for it. */
  ghost predicate NotYetJoined(sys: System, m: Msg, t: nat, s: SessionId) {
    && m in sys.mail.publishedAt && sys.mail.publishedAt[m] == t < sys.clock
    && !(OfStream(sys.conns, s, m.stream) && sys.conns[s].accepts == 1 && sys.conns[s].joinedAt <= t
         && (sys.conns[s].life.Open? || (m in sys.mail.targets && s in sys.mail.targets[m])))
  }

  lemma PublishedStays(sys: System, a: Action, m: Msg)
    requires TimesOk(sys.mail, sys.clock) && m in sys.mail.publishedAt
    ensures m in Take(sys, a).mail.publishedAt
    ensures Take(sys, a).mail.publishedAt[m] == sys.mail.publishedAt[m]
  {
    hide Send, WriteDone, WriteFail, Touch, Joined, Left, Members;
  }

  lemma AcceptedOnce(sys: System, s: SessionId)
    requires Inv(sys) && s in sys.conns && sys.conns[s].accepts == 1
    ensures !sys.conns[s].life.Accepting?
  {
    hide TimesOk, Accounted, TargetsOk, Membership;
    assert ConnOk(sys.bound, sys.clock, sys.conns[s]);
  }

  lemma JoinedStays(sys: System, a: Action, s: SessionId)
    requires s in sys.conns && !sys.conns[s].life.Accepting?
    ensures var r := Take(sys, a).conns;
            s in r && r[s].accepts == sys.conns[s].accepts && r[s].joinedAt == sys.conns[s].joinedAt
  {
    hide Send, WriteDone, WriteFail, Touch, Joined, Left, Members;
  }

  lemma StepJoinedBefore(sys: System, a: Action, m: Msg, t: nat, s: SessionId)
    requires Inv(sys) && JoinedBefore(sys, m, t, s)
    ensures JoinedBefore(Take(sys, a), m, t, s)
  {
    hide TimesOk, Accounted, TargetsOk, Membership, ConnsOk, Take;
    PublishedStays(sys, a, m);
    AcceptedOnce(sys, s);
    JoinedStays(sys, a, s);
  }

  /** A step sets the targets of m to the open sessions of its stream, or leaves them. */
  lemma TargetsAfter(sys: System, a: Action, m: Msg, s: SessionId)
    requires Membership(sys.rooms, sys.conns)
    requires m in Take(sys, a).mail.targets && s in Take(sys, a).mail.targets[m]
    ensures (m in sys.mail.targets && s in sys.mail.targets[m])
         || (OfStream(sys.conns, s, m.stream) && sys.conns[s].life.Open?)
  {
    hide Send, WriteDone, WriteFail, Touch, Joined, Left;
  }

  /** A session is opened by the step that dates its joining, or was open. */
  lemma JoinedAfter(sys: System, a: Action, s: SessionId)
    requires s in Take(sys, a).conns
    ensures var c := Take(sys, a).conns[s];
            || (c.accepts == 0)
            || (a.Accept? && c.joinedAt == sys.clock)
            || (s in sys.conns && c.stream == sys.conns[s].stream && c.accepts == sys.conns[s].accepts
                && c.joinedAt == sys.conns[s].joinedAt && (c.life.Open? ==> sys.conns[s].life.Open?))
  {
    hide Send, WriteDone, WriteFail, Touch, Joined, Left, Members;
  }

  lemma StepNotYetJoined(sys: System, a: Action, m: Msg, t: nat, s: SessionId)
    requires Inv(sys) && NotYetJoined(sys, m, t, s)
    ensures NotYetJoined(Take(sys, a), m, t, s)
  {
    hide TimesOk, Accounted, TargetsOk, Membership, ConnsOk, Next, Enabled;
    PublishedStays(sys, a, m);
    var r := Take(sys, a);
    if s in r.conns {
      JoinedAfter(sys, a, s);
      if m in r.mail.targets && s in r.mail.targets[m] { TargetsAfter(sys, a, m, s); }
    }
  }

  lemma {:induction false} RunJoined(sys: System, run: seq<Action>, m: Msg, t: nat, s: SessionId)
    requires Inv(sys)
    ensures JoinedBefore(sys, m, t, s) ==> JoinedBefore(TakeAll(sys, run), m, t, s)
    ensures NotYetJoined(sys, m, t, s) ==> NotYetJoined(TakeAll(sys, run), m, t, s)
    decreases |run|
  {
    if run == [] {
    } else {
      StepInv(sys, run[0]);
      if JoinedBefore(sys, m, t, s) { StepJoinedBefore(sys, run[0], m, t, s); }
      if NotYetJoined(sys, m, t, s) { StepNotYetJoined(sys, run[0], m, t, s); }
      hide Inv, Take, JoinedBefore, NotYetJoined;
      RunJoined(Take(sys, run[0]), run[1..], m, t, s);
    }
  }

  lemma PublishDates(sys: System, id: StreamId, s: SessionId)
    requires Inv(sys) && Members(sys.rooms, id) != {}
    ensures var r, m := Take(sys, Publish(id)), Msg(id, sys.mail.nextSerial);
            if s in Members(sys.rooms, id) then JoinedBefore(r, m, sys.clock, s) else NotYetJoined(r, m, sys.clock, s)
  {
    AfterPublish(sys, id);
    if s in sys.conns { assert ConnOk(sys.bound, sys.clock, sys.conns[s]); }
    hide Members, Accounted, TargetsOk, ConnsOk, Take;
    assert Take(sys, Publish(id)).mail.targets == sys.mail.targets;
  }

  /** Exactly when that happens.  Whatever steps follow a publication, a session it
      is sent to was sent a packet from before it joined if and only if it was not
      in the room when Send looked whether the room was empty. */
  lemma SentEarlierIff(sys: System, id: StreamId, run: seq<Action>, s: SessionId)
    requires Inv(sys) && Members(sys.rooms, id) != {}
    requires var r, m := TakeAll(Take(sys, Publish(id)), run), Msg(id, sys.mail.nextSerial);
             m in r.mail.targets && s in r.mail.targets[m]
    ensures SentEarlier(TakeAll(Take(sys, Publish(id)), run), Msg(id, sys.mail.nextSerial), s)
       <==> s !in Members(sys.rooms, id)
  {
    hide Take, TakeAll, Members;
    var first, m := Take(sys, Publish(id)), Msg(id, sys.mail.nextSerial);
    StepInv(sys, Publish(id));
    PublishDates(sys, id, s);
    RunInv(first, run);
    RunJoined(first, run, m, sys.clock, s);
    var r := TakeAll(first, run);
    assert Addressed(r.conns, m, r.mail.snapshotAt[m], s);
    hide Inv;
  }

  // ------------------------------------------------------------------ the classes

  /** The server's part: the stream table, and who is let in. */
  class WsStreamServer {
    const wsTargetPrefix: string
    var streamMap: set<StreamId>
    const room: WsStreamRoom

    constructor (prefix: string)
      ensures wsTargetPrefix == prefix && streamMap == {} && fresh(room)
      ensures forall id :: Members(room.sessionsMap, id) == {}
    {
      wsTargetPrefix, streamMap := prefix, {};
      room := new WsStreamRoom();
    }

    /** Send up to the packet's encoding: published: there are sessions to send it to. */
    method Send(id: StreamId) returns (published: bool)
      modifies this, room
      ensures streamMap == old(streamMap) + {id}
      ensures room.sessionsMap == Touch(old(room.sessionsMap), id)
      ensures published <==> Members(old(room.sessionsMap), id) != {}
    {
      if id !in streamMap {
        streamMap := streamMap + {id};
      }
      var empty := room.Empty(id);
      published := !empty;
    }

    /** granted: the stream a session is made for. */
    method DoSessionWebSocket(target: string) returns (granted: Option<StreamId>)
      ensures granted.Some? <==> wsTargetPrefix <= target && target[|wsTargetPrefix|..] in streamMap
      ensures granted.Some? ==> target == wsTargetPrefix + granted.value
    {
      if !(wsTargetPrefix <= target) {
        return None;
      }
      var id := target[|wsTargetPrefix|..];
      if id !in streamMap {
        return None;
      }
      granted := Some(id);
    }
  }

  /** A session's life, as far as its room goes. */
  class WsStreamSession {
    const self: SessionId
    const id: StreamId
    const room: WsStreamRoom

    constructor (self: SessionId, id: StreamId, room: WsStreamRoom)
      ensures this.self == self && this.id == id && this.room == room
    {
      this.self, this.id, this.room := self, id, room;
    }

    method OnEventOpened()
      modifies room
      ensures room.sessionsMap == Joined(old(room.sessionsMap), id, self)
    {
      room.Join(id, self);
    }

    method OnEventClosed()
      modifies room
      ensures room.sessionsMap == Left(old(room.sessionsMap), id, self)
    {
      room.Leave(id, self);
    }

    /** Any failure, of the handshake, a read or a write, aborted or not. */
    method OnEventFail(abortedOrClosed: bool)
      modifies room
      ensures room.sessionsMap == Left(old(room.sessionsMap), id, self)
    {
      if abortedOrClosed {
        OnEventClosed();
        return;
      }
      OnEventClosed();
    }

    method OnAccept(failed: bool)
      modifies room
      ensures room.sessionsMap == if failed then Left(old(room.sessionsMap), id, self)
                                  else Joined(old(room.sessionsMap), id, self)
    {
      if failed {
        OnEventFail(false);
        return;
      }
      OnEventOpened();
    }
  }
}
