/** What participants are sent, as one machine of streams: the hub without holds takes its steps, and
    so does the relay of a session. */
module Delivery {
  import opened Wire
  import Hub = HubSpec
  import HubViews
  import opened HubRefine
  import opened Membership
  import opened HubLedger
  import Session
  import SessionInv
  import SessionRuns

  /** Each participant with the notices and frames sent to it, and the host that newcomers are told of. */
  datatype Plain = Plain(streams: map<Id, seq<Frame>>, nextId: Id, host: Id)

  datatype Op = Enter | Exit(x: Id) | Pass(from: Id, to: Option<Id>, payload: Payload) | Claim(x: Id)

  function Members(p: Plain, o: Op): set<Id> {
    match o
    case Enter => p.streams.Keys + {p.nextId}
    case Exit(x) => p.streams.Keys - {x}
    case Pass(_, _, _) => p.streams.Keys
    case Claim(_) => p.streams.Keys
  }

  /** What an operation sends to `y`. */
  function Sends(p: Plain, o: Op, y: Id): seq<Frame> {
    match o
    case Enter => [ParticipantJoined(p.nextId)]
    case Exit(x) => [ParticipantLeft(x)]
    case Pass(from, Some(to), q) => if y == to then [Direct(from, to, q)] else []
    case Pass(from, None, q) => if y != from then [Broadcast(from, q)] else []
    case Claim(_) => []
  }

  function StreamAfter(p: Plain, o: Op, y: Id): seq<Frame> {
    if y !in p.streams || (o.Enter? && y == p.nextId) then [] else p.streams[y] + Sends(p, o, y)
  }

  function ApplyOp(p: Plain, o: Op): Plain {
    Plain(map y | y in Members(p, o) :: StreamAfter(p, o, y), if o.Enter? then p.nextId + 1 else p.nextId,
          if o.Claim? && o.x in p.streams then o.x else p.host)
  }

  /** What `f` makes of `p` along `os`. */
  function Fold(f: (Plain, Op) -> Plain, p: Plain, os: seq<Op>): Plain {
    if os == [] then p else f(Fold(f, p, os[..|os| - 1]), os[|os| - 1])
  }

  lemma FoldSnoc(f: (Plain, Op) -> Plain, p: Plain, os: seq<Op>, o: Op)
    ensures Fold(f, p, os + [o]) == f(Fold(f, p, os), o)
  {
    assert (os + [o])[..|os|] == os;
  }

  lemma {:induction false} FoldConcat(f: (Plain, Op) -> Plain, p: Plain, os: seq<Op>, qs: seq<Op>)
    ensures Fold(f, p, os + qs) == Fold(f, Fold(f, p, os), qs)
    decreases |qs|
  {
    if qs == [] {
      assert os + qs == os;
    } else {
      var n := |qs| - 1;
      FoldConcat(f, p, os, qs[..n]);
      FoldSnoc(f, p, os + qs[..n], qs[n]);
      assert os + qs == os + qs[..n] + [qs[n]];
    }
  }

  function ApplyOps(p: Plain, os: seq<Op>): Plain {
    Fold(ApplyOp, p, os)
  }

  lemma OpsSnoc(p: Plain, os: seq<Op>, o: Op)
    ensures ApplyOps(p, os + [o]) == ApplyOp(ApplyOps(p, os), o)
  {
    FoldSnoc(ApplyOp, p, os, o);
  }

  lemma OpsOne(p: Plain, o: Op)
    ensures ApplyOps(p, [o]) == ApplyOp(p, o)
  {
    OpsSnoc(p, [], o);
    assert [] + [o] == [o];
  }

  lemma OpsConcat(p: Plain, os: seq<Op>, qs: seq<Op>)
    ensures ApplyOps(p, os + qs) == ApplyOps(ApplyOps(p, os), qs)
  {
    FoldConcat(ApplyOp, p, os, qs);
  }

  // ----- The hub -----

  function Streams(s: Hub.HubState): Plain {
    Plain(map x | x in s.clients :: Traffic(s.clients[x].stream), s.nextId, s.host)
  }

  function OwnOps(s: Hub.HubState, cmd: Hub.Command): seq<Op> {
    match cmd
    case Join(_, _, _) => if |s.clients| < s.max then [Enter] else []
    case Leave(id, gen, unexpected) =>
      if Hub.LeaveMatches(s, id, gen) && !Hub.Holds(s, unexpected) then [Exit(id)] else []
    case GraceExpired(id, gen) => if Hub.ExpiryMatches(s, id, gen) then [Exit(id)] else []
    case Forward(from, ToOne(to, p)) => [Pass(from, Some(to), p)]
    case Forward(from, ToAll(p)) => [Pass(from, None, p)]
    case ClaimHost(id) => [Claim(id)]
    case _ => []
  }

  function Exits(t: Hub.Drops): seq<Op> {
    if t.Start? then [] else Exits(t.before) + [Exit(t.id)]
  }

  /** The operations of one command: its own, then one exit per eviction. */
  function Ops(s: Hub.HubState, cmd: Hub.Command, t: Hub.Drops): seq<Op> {
    OwnOps(s, cmd) + Exits(t)
  }

  /** What exits leave: the others, each told of every exit. */
  ghost predicate LeftBy(p: Plain, t: Hub.Drops, q: Plain) {
    && q.nextId == p.nextId && q.host == p.host && q.streams.Keys == p.streams.Keys - Hub.IdSet(t)
    && forall x :: x in q.streams ==> q.streams[x] == p.streams[x] + NoticesOf(Departures(t))
  }

  lemma LeftMore(p: Plain, t: Hub.Drops, q: Plain, id: Id, at: Hub.HubState)
    requires LeftBy(p, t, q)
    ensures LeftBy(p, Hub.Drop(t, at, id), ApplyOp(q, Exit(id)))
  {
    var t', q' := Hub.Drop(t, at, id), ApplyOp(q, Exit(id));
    var ns, l := NoticesOf(Departures(t)), ParticipantLeft(id);
    assert NoticesOf(Departures(t')) == ns + [l];
    forall x | x in q'.streams ensures q'.streams[x] == p.streams[x] + NoticesOf(Departures(t')) {
      assert p.streams[x] + ns + [l] == p.streams[x] + (ns + [l]);
    }
  }

  lemma {:induction false} ExitsLeave(p: Plain, t: Hub.Drops)
    ensures LeftBy(p, t, ApplyOps(p, Exits(t)))
  {
    if t.Drop? {
      ExitsLeave(p, t.before);
      OpsSnoc(p, Exits(t.before), Exit(t.id));
      LeftMore(p, t.before, ApplyOps(p, Exits(t.before)), t.id, t.at);
    } else {
      NothingLeft(p);
    }
  }

  lemma NothingLeft(p: Plain)
    ensures LeftBy(p, Hub.Start, p)
  {
    forall x | x in p.streams ensures p.streams[x] + NoticesOf(Departures(Hub.Start)) == p.streams[x] { }
  }

  /** What a command's own operation sends is the handler's frame. */
  lemma OwnSends(s: Hub.HubState, cmd: Hub.Command, x: Id)
    requires x in s.clients && OwnOps(s, cmd) != []
    ensures |OwnOps(s, cmd)| == 1 && Sends(Streams(s), OwnOps(s, cmd)[0], x) == OwnFrames(s, cmd, x)
  {
    match cmd
    case Join(_, _, token) => assert NoticesOf([Arrive(s.nextId, token)]) == [ParticipantJoined(s.nextId)];
    case Leave(id, _, _) => assert NoticesOf([Depart(id)]) == [ParticipantLeft(id)];
    case GraceExpired(id, _) => assert NoticesOf([Depart(id)]) == [ParticipantLeft(id)];
    case Forward(_, _) =>
    case _ =>
  }

  lemma OwnSilent(s: Hub.HubState, cmd: Hub.Command, x: Id)
    requires OwnOps(s, cmd) == []
    ensures OwnFrames(s, cmd, x) == []
  {
  }

  /** What it leaves, for those who were there before. */
  lemma OwnLeaves(s: Hub.HubState, cmd: Hub.Command, x: Id)
    requires x in s.clients && x in ApplyOps(Streams(s), OwnOps(s, cmd)).streams && (cmd.Join? ==> x != s.nextId)
    ensures ApplyOps(Streams(s), OwnOps(s, cmd)).streams[x] == Streams(s).streams[x] + OwnFrames(s, cmd, x)
  {
    if OwnOps(s, cmd) == [] {
      OwnSilent(s, cmd, x);
      assert Streams(s).streams[x] + [] == Streams(s).streams[x];
    } else {
      OwnSends(s, cmd, x);
      OneLeaves(Streams(s), OwnOps(s, cmd), x);
    }
  }

  lemma OneLeaves(p: Plain, os: seq<Op>, x: Id)
    requires |os| == 1 && x in p.streams && x in ApplyOps(p, os).streams && (os[0].Enter? ==> x != p.nextId)
    ensures ApplyOps(p, os).streams[x] == p.streams[x] + Sends(p, os[0], x)
  {
    assert os == [os[0]];
    OpsOne(p, os[0]);
  }

  lemma OwnKeys(s: Hub.HubState, cmd: Hub.Command)
    ensures var p, r := ApplyOps(Streams(s), OwnOps(s, cmd)), ApplyAll(Abs(s), OwnEvents(s, cmd));
      p.streams.Keys == r.members.Keys && p.nextId == r.nextId
  {
    OwnOpKeys(s, cmd);
    SameKeys(Streams(s), OwnOps(s, cmd), Abs(s), OwnEvents(s, cmd));
  }

  lemma SameKeys(p: Plain, os: seq<Op>, r: Roster, es: seq<Event>)
    requires p.streams.Keys == r.members.Keys && p.nextId == r.nextId && |os| <= 1 && |es| <= 1
    requires es == [] ==> os == [] || os[0].Pass? || os[0].Claim?
    requires es != [] ==> os != [] && Members(p, os[0]) == Apply(r, es[0]).members.Keys && (os[0].Enter? <==> es[0].Arrive?)
    requires es != [] && es[0].Arrive? ==> es[0].id == r.nextId
    ensures ApplyOps(p, os).streams.Keys == ApplyAll(r, es).members.Keys && ApplyOps(p, os).nextId == ApplyAll(r, es).nextId
  {
    if os != [] { assert os == [os[0]]; OpsOne(p, os[0]); }
    if es != [] { assert es == [es[0]]; ApplyOne(r, es[0]); }
  }

  lemma OwnNew(s: Hub.HubState, cmd: Hub.Command)
    requires cmd.Join? && |s.clients| < s.max
    ensures var p := ApplyOps(Streams(s), OwnOps(s, cmd)); s.nextId in p.streams && p.streams[s.nextId] == []
  {
    OpsOne(Streams(s), Enter);
  }

  /** The one operation of a command and its one event have the same members. */
  lemma OwnOpKeys(s: Hub.HubState, cmd: Hub.Command)
    ensures OwnEvents(s, cmd) == [] ==> OwnOps(s, cmd) == [] || (|OwnOps(s, cmd)| == 1 && (OwnOps(s, cmd)[0].Pass? || OwnOps(s, cmd)[0].Claim?))
    ensures OwnEvents(s, cmd) != [] ==> |OwnOps(s, cmd)| == 1 == |OwnEvents(s, cmd)|
    ensures OwnEvents(s, cmd) != [] ==>
      var o, e := OwnOps(s, cmd)[0], OwnEvents(s, cmd)[0];
      Members(Streams(s), o) == Apply(Abs(s), e).members.Keys && (o.Enter? <==> e.Arrive?) && (e.Arrive? ==> e.id == s.nextId)
  {
  }

  /** Unless it holds or resumes, a command leaves everybody's generation alone. */
  lemma GenStays(s: Hub.HubState, cmd: Hub.Command, reply: Hub.Reply, m: Hub.HubState, concurrent: bool, x: Id)
    requires HubViews.Mid(s) && Hub.HandlerStep(s, cmd, reply, m, concurrent) && !Stutters(s, cmd)
    requires x in s.clients && x in m.clients && (cmd.Join? ==> x != s.nextId) && !m.over
    ensures m.clients[x].gen == s.clients[x].gen
  {
    match cmd
    case Join(isCreate, conn, token) =>
      if |s.clients| < s.max {
        assert Hub.Fanned(Hub.Registered(s, isCreate, conn, token), ParticipantJoined(s.nextId), s.nextId, m, x, concurrent);
      }
    case Leave(id, gen, _) => if Hub.LeaveMatches(s, id, gen) { RemoveGen(s, id, m, concurrent, x); }
    case GraceExpired(id, gen) => if Hub.ExpiryMatches(s, id, gen) { RemoveGen(s, id, m, concurrent, x); }
    case Forward(from, msg) => ForwardGen(s, from, msg, m, concurrent, x);
    case _ =>
  }

  lemma RemoveGen(s: Hub.HubState, id: Id, m: Hub.HubState, concurrent: bool, x: Id)
    requires Hub.RemoveStep(s, id, m, concurrent) && id in s.clients && x in s.clients && x in m.clients && !m.over
    ensures m.clients[x].gen == s.clients[x].gen
  {
    assert Hub.Fanned(Hub.Without(s, id), ParticipantLeft(id), 0, m, x, concurrent);
  }

  lemma ForwardGen(s: Hub.HubState, from: Id, msg: Hub.Routed, m: Hub.HubState, concurrent: bool, x: Id)
    requires Hub.ForwardStep(s, from, msg, m, concurrent) && x in s.clients && x in m.clients
    ensures m.clients[x].gen == s.clients[x].gen
  {
    match msg
    case BadDirect => SendGen(s, from, Error(ERR_BAD_FRAME), m, concurrent, x);
    case BadBroadcast => SendGen(s, from, Error(ERR_BAD_FRAME), m, concurrent, x);
    case ToOne(to, p) =>
      if to in s.clients {
        SendGen(s, to, Direct(from, to, p), m, concurrent, x);
      } else {
        SendGen(s, from, Error(ERR_UNKNOWN_PEER), m, concurrent, x);
      }
    case ToAll(p) => assert Hub.Fanned(s, Broadcast(from, p), from, m, x, concurrent);
  }

  lemma SendGen(s: Hub.HubState, to: Id, f: Frame, m: Hub.HubState, concurrent: bool, x: Id)
    requires Hub.SendStep(s, to, f, m, concurrent) && x in s.clients && x in m.clients
    ensures m.clients[x].gen == s.clients[x].gen
  {
    if to in s.clients { assert Hub.Sent(s, f, to, m, x, concurrent); }
  }

  /** Whoever is left after the drain has heard of every eviction. */
  lemma DrainedHeard(s: Hub.HubState, cmd: Hub.Command, reply: Hub.Reply, m: Hub.HubState, t: Hub.Drops, s': Hub.HubState, concurrent: bool, x: Id)
    requires HubViews.Boundary(s) && !s.over && Hub.HandlerStep(s, cmd, reply, m, concurrent)
    requires Hub.DrainUnlessOver(m, t, s', concurrent) && !s'.over && x in s'.clients
    requires cmd.Join? ==> s.nextId + 1 < ID_SPACE
    ensures !m.over && x in m.clients && Heard(m.clients[x], NoticesOf(Departures(t)), s'.clients[x])
  {
    HubViews.HandlerKeeps(s, cmd, reply, m, concurrent);
    HubViews.DrainMid(m, t, s', concurrent);
    DrainHeard(m, t, s', concurrent);
    assert x !in s'.evict;
    assert HeardBy(m, NoticesOf(Departures(t)), s', x);
  }

  /** Somebody who was there before and still is. */
  lemma SentTo(s: Hub.HubState, cmd: Hub.Command, reply: Hub.Reply, t: Hub.Drops, s': Hub.HubState, concurrent: bool, x: Id)
    requires HubViews.Boundary(s) && Hub.CommandStep(s, cmd, reply, t, s', concurrent) && !s'.over && !Stutters(s, cmd)
    requires cmd.Join? ==> s.nextId + 1 < ID_SPACE
    requires x in s.clients && x in s'.clients
    ensures Traffic(s'.clients[x].stream) == Traffic(s.clients[x].stream) + OwnFrames(s, cmd, x) + NoticesOf(Departures(t))
  {
    var m :| Hub.HandlerStep(s, cmd, reply, m, concurrent) && Hub.DrainUnlessOver(m, t, s', concurrent);
    DrainedHeard(s, cmd, reply, m, t, s', concurrent, x);
    GenStays(s, cmd, reply, m, concurrent, x);
    CommandHeard(s, cmd, reply, t, s', concurrent, x);
    HeardInParts(s.clients[x], OwnFrames(s, cmd, x), NoticesOf(Departures(t)), s'.clients[x]);
  }

  lemma HeardInParts(c: Hub.Client, os: seq<Frame>, ns: seq<Frame>, c': Hub.Client)
    requires Heard(c, os + ns, c')
    ensures Traffic(c'.stream) == Traffic(c.stream) + os + ns
  {
    assert Traffic(c.stream) + (os + ns) == Traffic(c.stream) + os + ns;
  }

  /** The newcomer. */
  lemma SentToNew(s: Hub.HubState, cmd: Hub.Command, reply: Hub.Reply, t: Hub.Drops, s': Hub.HubState, concurrent: bool)
    requires HubViews.Boundary(s) && Hub.CommandStep(s, cmd, reply, t, s', concurrent) && !s'.over
    requires cmd.Join? && s.nextId + 1 < ID_SPACE && |s.clients| < s.max && s.nextId in s'.clients
    ensures Traffic(s'.clients[s.nextId].stream) == NoticesOf(Departures(t))
  {
    var m :| Hub.HandlerStep(s, cmd, reply, m, concurrent) && Hub.DrainUnlessOver(m, t, s', concurrent);
    var x := s.nextId;
    DrainedHeard(s, cmd, reply, m, t, s', concurrent, x);
    NewHasHello(s, cmd, reply, m, concurrent);
    HeardFromHello(m.clients[x], NoticesOf(Departures(t)), s'.clients[x]);
  }

  lemma NewHasHello(s: Hub.HubState, cmd: Hub.Command, reply: Hub.Reply, m: Hub.HubState, concurrent: bool)
    requires cmd.Join? && |s.clients| < s.max && Hub.HandlerStep(s, cmd, reply, m, concurrent)
    ensures s.nextId in m.clients && |m.clients[s.nextId].stream| == 1 && !IsTraffic(m.clients[s.nextId].stream[0])
  {
    var x, r := s.nextId, Hub.Registered(s, cmd.isCreate, cmd.conn, cmd.token);
    assert Hub.Fanned(r, ParticipantJoined(x), x, m, x, concurrent);
  }

  lemma HeardFromHello(c: Hub.Client, ns: seq<Frame>, c': Hub.Client)
    requires Heard(c, ns, c') && |c.stream| == 1 && !IsTraffic(c.stream[0])
    ensures Traffic(c'.stream) == ns
  {
    HelloOnly(c.stream);
    assert [] + ns == ns;
  }

  lemma HelloOnly(fs: seq<Frame>)
    requires |fs| == 1 && !IsTraffic(fs[0])
    ensures Traffic(fs) == []
  {
    assert fs[..0] == [];
  }

  /** Every command that neither holds nor resumes a slot sends exactly what the plain machine sends. */
  lemma CommandDelivers(s: Hub.HubState, cmd: Hub.Command, reply: Hub.Reply, t: Hub.Drops, s': Hub.HubState, concurrent: bool)
    requires HubViews.Boundary(s) && Hub.CommandStep(s, cmd, reply, t, s', concurrent) && !s'.over && !Stutters(s, cmd)
    requires cmd.Join? ==> s.nextId + 1 < ID_SPACE
    ensures Streams(s') == ApplyOps(Streams(s), Ops(s, cmd, t))
  {
    var p := ApplyOps(Streams(s), OwnOps(s, cmd));
    OpsConcat(Streams(s), OwnOps(s, cmd), Exits(t));
    ExitsLeave(p, t);
    CommandLeaves(s, cmd, reply, t, s', concurrent, p);
    LeftOne(p, t, ApplyOps(p, Exits(t)), Streams(s'));
  }

  lemma LeftOne(p: Plain, t: Hub.Drops, q: Plain, r: Plain)
    requires LeftBy(p, t, q) && LeftBy(p, t, r)
    ensures q == r
  {
    assert q.streams == r.streams;
  }

  lemma CommandLeaves(s: Hub.HubState, cmd: Hub.Command, reply: Hub.Reply, t: Hub.Drops, s': Hub.HubState, concurrent: bool, p: Plain)
    requires HubViews.Boundary(s) && Hub.CommandStep(s, cmd, reply, t, s', concurrent) && !s'.over && !Stutters(s, cmd)
    requires (cmd.Join? ==> s.nextId + 1 < ID_SPACE) && p == ApplyOps(Streams(s), OwnOps(s, cmd))
    ensures LeftBy(p, t, Streams(s'))
  {
    MembersAfter(s, cmd, reply, t, s', concurrent, p);
    HostAfter(s, cmd, reply, t, s', concurrent);
    var q := Streams(s');
    assert q.streams.Keys == s'.clients.Keys;
    forall x | x in q.streams ensures q.streams[x] == p.streams[x] + NoticesOf(Departures(t)) {
      SentInAll(s, cmd, reply, t, s', concurrent, p, x);
    }
  }

  lemma HostAfter(s: Hub.HubState, cmd: Hub.Command, reply: Hub.Reply, t: Hub.Drops, s': Hub.HubState, concurrent: bool)
    requires HubViews.Boundary(s) && Hub.CommandStep(s, cmd, reply, t, s', concurrent)
    requires cmd.Join? ==> s.nextId + 1 < ID_SPACE
    ensures s'.host == ApplyOps(Streams(s), OwnOps(s, cmd)).host
  {
    CommandBook(s, cmd, reply, t, s', concurrent);
    BookedHost(Kept(s), Hub.Did(cmd, reply, t));
    assert Kept(s').host == s'.host && Kept(s).host == s.host && Kept(s).seats.Keys == s.clients.Keys;
    OwnHost(s, cmd);
  }

  lemma OwnHost(s: Hub.HubState, cmd: Hub.Command)
    ensures ApplyOps(Streams(s), OwnOps(s, cmd)).host == if cmd.ClaimHost? && cmd.id in s.clients then cmd.id else s.host
  {
    var os := OwnOps(s, cmd);
    if os != [] {
      assert os == [os[0]];
      OpsOne(Streams(s), os[0]);
    }
  }

  lemma MembersAfter(s: Hub.HubState, cmd: Hub.Command, reply: Hub.Reply, t: Hub.Drops, s': Hub.HubState, concurrent: bool, p: Plain)
    requires HubViews.Boundary(s) && Hub.CommandStep(s, cmd, reply, t, s', concurrent)
    requires (cmd.Join? ==> s.nextId + 1 < ID_SPACE) && p == ApplyOps(Streams(s), OwnOps(s, cmd))
    ensures s'.clients.Keys == p.streams.Keys - Hub.IdSet(t) && s'.nextId == p.nextId
  {
    OwnKeys(s, cmd);
    KeysAfter(s, cmd, reply, t, s', concurrent);
  }

  lemma SentInAll(s: Hub.HubState, cmd: Hub.Command, reply: Hub.Reply, t: Hub.Drops, s': Hub.HubState, concurrent: bool, p: Plain, x: Id)
    requires HubViews.Boundary(s) && Hub.CommandStep(s, cmd, reply, t, s', concurrent) && !s'.over && !Stutters(s, cmd)
    requires (cmd.Join? ==> s.nextId + 1 < ID_SPACE) && p == ApplyOps(Streams(s), OwnOps(s, cmd)) && x in s'.clients
    ensures x in p.streams && Traffic(s'.clients[x].stream) == p.streams[x] + NoticesOf(Departures(t))
  {
    MembersAfter(s, cmd, reply, t, s', concurrent, p);
    OwnKeys(s, cmd);
    if cmd.Join? && x == s.nextId {
      NewSent(s, cmd, reply, t, s', concurrent, p);
    } else {
      BeforeInside(s, cmd, t, x);
      SentTo(s, cmd, reply, t, s', concurrent, x);
      OwnLeaves(s, cmd, x);
    }
  }

  lemma NewSent(s: Hub.HubState, cmd: Hub.Command, reply: Hub.Reply, t: Hub.Drops, s': Hub.HubState, concurrent: bool, p: Plain)
    requires HubViews.Boundary(s) && Hub.CommandStep(s, cmd, reply, t, s', concurrent) && !s'.over
    requires cmd.Join? && s.nextId + 1 < ID_SPACE && p == ApplyOps(Streams(s), OwnOps(s, cmd)) && s.nextId in s'.clients
    ensures s.nextId in p.streams && Traffic(s'.clients[s.nextId].stream) == p.streams[s.nextId] + NoticesOf(Departures(t))
  {
    NewInside(s, cmd, reply, t, s', concurrent);
    OwnNew(s, cmd);
    SentToNew(s, cmd, reply, t, s', concurrent);
    assert [] + NoticesOf(Departures(t)) == NoticesOf(Departures(t));
  }

  lemma {:induction false} DeparturesLeave(r: Roster, t: Hub.Drops)
    ensures ApplyAll(r, Departures(t)).members.Keys == r.members.Keys - Hub.IdSet(t)
    ensures ApplyAll(r, Departures(t)).nextId == r.nextId
  {
    if t.Drop? {
      DeparturesLeave(r, t.before);
      ApplyMore(r, Departures(t.before), Depart(t.id));
    }
  }

  lemma KeysAfter(s: Hub.HubState, cmd: Hub.Command, reply: Hub.Reply, t: Hub.Drops, s': Hub.HubState, concurrent: bool)
    requires HubViews.Boundary(s) && Hub.CommandStep(s, cmd, reply, t, s', concurrent)
    requires cmd.Join? ==> s.nextId + 1 < ID_SPACE
    ensures var r := ApplyAll(Abs(s), OwnEvents(s, cmd));
      s'.clients.Keys == r.members.Keys - Hub.IdSet(t) && s'.nextId == r.nextId
  {
    CommandRefines(s, cmd, reply, t, s', concurrent);
    var r := ApplyAll(Abs(s), OwnEvents(s, cmd));
    EventsSplit(Abs(s), OwnEvents(s, cmd), Departures(t));
    DeparturesLeave(r, t);
    assert Abs(s').members.Keys == s'.clients.Keys;
  }

  lemma {:induction false} EventsSplit(r: Roster, es: seq<Event>, fs: seq<Event>)
    ensures ApplyAll(r, es + fs) == ApplyAll(ApplyAll(r, es), fs)
    decreases |fs|
  {
    if fs == [] {
      assert es + fs == es;
    } else {
      var n := |fs| - 1;
      EventsSplit(r, es, fs[..n]);
      assert (es + fs)[..|es| + n] == es + fs[..n];
    }
  }

  lemma NewInside(s: Hub.HubState, cmd: Hub.Command, reply: Hub.Reply, t: Hub.Drops, s': Hub.HubState, concurrent: bool)
    requires HubViews.Boundary(s) && Hub.CommandStep(s, cmd, reply, t, s', concurrent) && !s'.over
    requires cmd.Join? && s.nextId + 1 < ID_SPACE && s.nextId in s'.clients
    ensures |s.clients| < s.max && OwnEvents(s, cmd) == [Arrive(s.nextId, cmd.token)]
  {
    KeysAfter(s, cmd, reply, t, s', concurrent);
    assert s.nextId !in s.clients;
  }

  lemma BeforeInside(s: Hub.HubState, cmd: Hub.Command, t: Hub.Drops, x: Id)
    requires var r := ApplyAll(Abs(s), OwnEvents(s, cmd)); x in r.members && !(cmd.Join? && x == s.nextId)
    ensures x in s.clients
  {
    var es := OwnEvents(s, cmd);
    if es != [] {
      assert es == [es[0]];
      ApplyOne(Abs(s), es[0]);
    }
  }

  // ----- Runs of the hub -----

  predicate Plainly(s: Hub.HubState, l: Hub.Label) {
    l.Did? ==> !Stutters(s, l.cmd)
  }

  function LabelOps(s: Hub.HubState, l: Hub.Label): seq<Op> {
    if l.Did? then Ops(s, l.cmd, l.removed) else []
  }

  function RunOps(states: seq<Hub.HubState>, labels: seq<Hub.Label>, i: nat): seq<Op>
    requires |states| == |labels| + 1 && i <= |labels|
  {
    if i == 0 then [] else RunOps(states, labels, i - 1) + LabelOps(states[i - 1], labels[i - 1])
  }

  lemma QuietDelivers(s: Hub.HubState, s': Hub.HubState)
    requires Hub.DriftStep(s, s')
    ensures Streams(s') == Streams(s)
  {
    forall x | x in s.clients ensures Traffic(s'.clients[x].stream) == Traffic(s.clients[x].stream) {
      assert Hub.Drift(s.clients[x], s'.clients[x], true);
      if !s.clients[x].held { TrafficLocal(s.clients[x].stream, s'.clients[x].stream); }
    }
  }

  /** In every run that neither holds nor resumes, every participant has been sent exactly what the
      plain machine sends. */
  lemma {:induction false} RunDelivers(states: seq<Hub.HubState>, labels: seq<Hub.Label>, i: nat)
    requires Hub.Run(states, labels) && i < |states| && !states[i].over
    requires forall j :: 0 <= j < i ==> Plainly(states[j], labels[j])
    ensures Streams(states[i]) == ApplyOps(Plain(map[], Hub.HOST_ID, Hub.HOST_ID), RunOps(states, labels, i))
  {
    if i == 0 {
      assert Streams(states[0]).streams == map[];
    } else {
      NotOverBefore(states, labels, i - 1);
      RunDelivers(states, labels, i - 1);
      StepDelivers(states, labels, i - 1);
      OpsConcat(Plain(map[], Hub.HOST_ID, Hub.HOST_ID), RunOps(states, labels, i - 1), LabelOps(states[i - 1], labels[i - 1]));
    }
  }

  lemma NotOverBefore(states: seq<Hub.HubState>, labels: seq<Hub.Label>, i: nat)
    requires Hub.Run(states, labels) && i < |labels| && !states[i + 1].over
    ensures !states[i].over
  {
    assert Hub.Takes(states, labels, i);
  }

  lemma StepDelivers(states: seq<Hub.HubState>, labels: seq<Hub.Label>, i: nat)
    requires Hub.Run(states, labels) && i < |labels| && !states[i + 1].over && Plainly(states[i], labels[i])
    ensures Streams(states[i + 1]) == ApplyOps(Streams(states[i]), LabelOps(states[i], labels[i]))
  {
    assert Hub.Takes(states, labels, i);
    HubViews.RunKeeps(states, labels, i);
    match labels[i]
    case Quiet => QuietDelivers(states[i], states[i + 1]);
    case Did(cmd, reply, t) => CommandDelivers(states[i], cmd, reply, t, states[i + 1], true);
  }

  // ----- The relay of a session -----

  function MemberStreams(s: Session.Sys): Plain {
    Plain(map x | x in s.members && x in s.nodes :: s.nodes[x].stream, s.nextId, s.relayHost)
  }

  ghost function SessionOps(s: Session.Sys, a: Session.Step): seq<Op>
    requires Session.Enabled(s, a)
  {
    match a
    case DoJoin(_) => [Enter]
    case DoLeave(x) => [Exit(x)]
    case DoClaim(x) => [Claim(x)]
    case DoRoute(x) =>
      (match s.nodes[x].outbox[0]
       case ToOne(to, p) => [Pass(x, Some(to), p)]
       case ToAll(key) => [Pass(x, None, Sealed(key, x))])
    case _ => []
  }

  /** Every step of a session sends what the same machine sends. */
  lemma SessionDelivers(s: Session.Sys, a: Session.Step)
    requires SessionInv.Inv(s) && Session.Enabled(s, a)
    ensures MemberStreams(Session.Next(s, a)) == ApplyOps(MemberStreams(s), SessionOps(s, a))
  {
    if SessionOps(s, a) != [] { OpsOne(MemberStreams(s), SessionOps(s, a)[0]); }
    match a
    case DoJoin(_) => JoinSends(s, a.observer);
    case DoLeave(x) => LeaveSends(s, x);
    case DoRoute(x) => RouteSends(s, x);
    case DoClaim(x) => ClaimSends(s, x);
    case _ => OthersSend(s, a);
  }

  lemma JoinSends(s: Session.Sys, observer: bool)
    requires SessionInv.Inv(s)
    ensures MemberStreams(Session.Next(s, Session.DoJoin(observer))) == ApplyOp(MemberStreams(s), Enter)
  {
    assert s.nextId !in s.nodes;
    var p, q := MemberStreams(Session.Next(s, Session.DoJoin(observer))), ApplyOp(MemberStreams(s), Enter);
    assert p.streams.Keys == q.streams.Keys;
    assert p.streams == q.streams;
  }

  lemma LeaveSends(s: Session.Sys, x: Id)
    requires SessionInv.Inv(s) && x in s.members
    ensures MemberStreams(Session.Next(s, Session.DoLeave(x))) == ApplyOp(MemberStreams(s), Exit(x))
  {
    assert 0 !in s.nodes;
    assert MemberStreams(Session.Next(s, Session.DoLeave(x))).streams == ApplyOp(MemberStreams(s), Exit(x)).streams;
  }

  lemma RouteSends(s: Session.Sys, x: Id)
    requires SessionInv.Inv(s) && Session.Enabled(s, Session.DoRoute(x))
    ensures MemberStreams(Session.Next(s, Session.DoRoute(x))) == ApplyOp(MemberStreams(s), SessionOps(s, Session.DoRoute(x))[0])
  {
    var p, q := MemberStreams(Session.Next(s, Session.DoRoute(x))), ApplyOp(MemberStreams(s), SessionOps(s, Session.DoRoute(x))[0]);
    forall y | y in s.members ensures y in p.streams && y in q.streams && p.streams[y] == q.streams[y] {
      assert s.nodes[y].stream + [] == s.nodes[y].stream;
    }
    assert p.streams.Keys == q.streams.Keys;
    assert p.streams == q.streams;
  }

  lemma ClaimSends(s: Session.Sys, x: Id)
    requires SessionInv.Inv(s) && x in s.members
    ensures MemberStreams(Session.Next(s, Session.DoClaim(x))) == ApplyOp(MemberStreams(s), Claim(x))
  {
    var p, q := MemberStreams(s), ApplyOp(MemberStreams(s), Claim(x));
    forall y | y in p.streams ensures q.streams[y] == p.streams[y] { assert p.streams[y] + [] == p.streams[y]; }
    assert q.streams == p.streams;
  }

  lemma OthersQuiet(s: Session.Sys, a: Session.Step)
    requires Session.Enabled(s, a) && !a.DoJoin? && !a.DoLeave? && !a.DoRoute? && !a.DoClaim?
    ensures
      var s' := Session.Next(s, a);
      && s'.members == s.members && s'.nodes.Keys == s.nodes.Keys && s'.nextId == s.nextId && s'.relayHost == s.relayHost
      && forall x :: x in s.nodes ==> s'.nodes[x].stream == s.nodes[x].stream
  {
  }

  lemma OthersSend(s: Session.Sys, a: Session.Step)
    requires SessionInv.Inv(s) && Session.Enabled(s, a) && !a.DoJoin? && !a.DoLeave? && !a.DoRoute? && !a.DoClaim?
    ensures MemberStreams(Session.Next(s, a)) == MemberStreams(s)
  {
    OthersQuiet(s, a);
    assert MemberStreams(Session.Next(s, a)).streams == MemberStreams(s).streams;
  }

  ghost function SessionRunOps(ss: seq<Session.Sys>, steps: seq<Session.Step>, i: nat): seq<Op>
    requires Session.Run(ss, steps) && i <= |steps|
  {
    if i == 0 then []
    else
      assert Session.Takes(ss, steps, i - 1);
      SessionRunOps(ss, steps, i - 1) + SessionOps(ss[i - 1], steps[i - 1])
  }

  lemma SessionStepDelivers(ss: seq<Session.Sys>, steps: seq<Session.Step>, i: nat)
    requires Session.Run(ss, steps) && i < |steps|
    ensures Session.Enabled(ss[i], steps[i]) && MemberStreams(ss[i + 1]) == ApplyOps(MemberStreams(ss[i]), SessionOps(ss[i], steps[i]))
  {
    SessionRuns.RunStep(ss, steps, i);
    SessionDelivers(ss[i], steps[i]);
  }

  lemma {:induction false} SessionRunFrom(ss: seq<Session.Sys>, steps: seq<Session.Step>, i: nat, p: Plain) returns (os: seq<Op>)
    requires Session.Run(ss, steps) && i < |ss| && p == MemberStreams(ss[0])
    ensures os == SessionRunOps(ss, steps, i) && MemberStreams(ss[i]) == ApplyOps(p, os)
  {
    if i == 0 {
      os := [];
    } else {
      var before := SessionRunFrom(ss, steps, i - 1, p);
      os := SessionRunMore(ss, steps, i - 1, p, before);
    }
  }

  lemma SessionRunMore(ss: seq<Session.Sys>, steps: seq<Session.Step>, i: nat, p: Plain, before: seq<Op>) returns (os: seq<Op>)
    requires Session.Run(ss, steps) && i < |steps|
    requires before == SessionRunOps(ss, steps, i) && MemberStreams(ss[i]) == ApplyOps(p, before)
    ensures os == SessionRunOps(ss, steps, i + 1) && MemberStreams(ss[i + 1]) == ApplyOps(p, os)
  {
    SessionStepDelivers(ss, steps, i);
    var more := SessionOps(ss[i], steps[i]);
    OpsConcat(p, before, more);
    os := before + more;
  }

  lemma SessionRunDelivers(ss: seq<Session.Sys>, steps: seq<Session.Step>, i: nat)
    requires Session.Run(ss, steps) && i < |ss|
    ensures MemberStreams(ss[i]) == ApplyOps(Plain(map[1 := []], 2, 1), SessionRunOps(ss, steps, i))
  {
    var p := Plain(map[1 := []], 2, 1);
    assert MemberStreams(ss[0]).streams == p.streams;
    var os := SessionRunFrom(ss, steps, i, p);
  }

  /** A hub run without holds and a session's run that handle the same joins, departures, claims and
      frames, the creator's join first: members, host and every member's stream are the same in both. */
  lemma HubServesSession(states: seq<Hub.HubState>, labels: seq<Hub.Label>, i: nat,
                         ss: seq<Session.Sys>, steps: seq<Session.Step>, j: nat)
    requires Hub.Run(states, labels) && i < |states| && !states[i].over
    requires forall l :: 0 <= l < i ==> Plainly(states[l], labels[l])
    requires Session.Run(ss, steps) && j < |ss|
    requires RunOps(states, labels, i) == [Enter] + SessionRunOps(ss, steps, j)
    ensures states[i].clients.Keys == ss[j].members && states[i].nextId == ss[j].nextId && states[i].host == ss[j].relayHost
    ensures forall x :: x in ss[j].members ==> x in ss[j].nodes && Traffic(states[i].clients[x].stream) == ss[j].nodes[x].stream
  {
    RunDelivers(states, labels, i);
    SessionRunDelivers(ss, steps, j);
    var empty := Plain(map[], Hub.HOST_ID, Hub.HOST_ID);
    OpsConcat(empty, [Enter], SessionRunOps(ss, steps, j));
    OpsOne(empty, Enter);
    assert ApplyOp(empty, Enter) == Plain(map[1 := []], 2, 1);
    SessionRuns.RunKeeps(ss, steps, j);
    assert Streams(states[i]) == MemberStreams(ss[j]);
    assert Streams(states[i]).streams.Keys == states[i].clients.Keys;
    assert MemberStreams(ss[j]).streams.Keys == ss[j].members;
    forall x | x in ss[j].members ensures Traffic(states[i].clients[x].stream) == ss[j].nodes[x].stream {
      assert Streams(states[i]).streams[x] == MemberStreams(ss[j]).streams[x];
    }
  }

  /** If the next command of the one and step of the other is somebody joining, the newcomer sends its first
      flight to the host that the hub's reply names, which is the last to have claimed it. */
  lemma JoinerAsksNamedHost(states: seq<Hub.HubState>, labels: seq<Hub.Label>, i: nat,
                            ss: seq<Session.Sys>, steps: seq<Session.Step>, j: nat)
    requires Hub.Run(states, labels) && i < |labels| && !states[i].over
    requires forall l :: 0 <= l < i ==> Plainly(states[l], labels[l])
    requires Session.Run(ss, steps) && j < |steps| && steps[j].DoJoin?
    requires RunOps(states, labels, i) == [Enter] + SessionRunOps(ss, steps, j)
    requires labels[i].Did? && labels[i].cmd.Join? && !labels[i].cmd.isCreate && labels[i].reply.Seated?
    requires labels[i].reply.id in states[i + 1].clients
    ensures
      var x := labels[i].reply.id;
      && x == ss[j].nextId && x in ss[j + 1].nodes && states[i + 1].clients[x].stream != []
      && states[i + 1].clients[x].stream[0].JoinResult?
      && states[i + 1].clients[x].stream[0].host == LastClaim(states, labels, i) == ss[j + 1].nodes[x].end.v.hostId
      && |ss[j + 1].nodes[x].outbox| == 1 && ss[j + 1].nodes[x].outbox[0].ToOne?
      && ss[j + 1].nodes[x].outbox[0].to == LastClaim(states, labels, i)
  {
    HubServesSession(states, labels, i, ss, steps, j);
    JoinNames(states, labels, i);
    JoinAsks(ss, steps, j);
  }

  lemma JoinNames(states: seq<Hub.HubState>, labels: seq<Hub.Label>, i: nat)
    requires Hub.Run(states, labels) && i < |labels|
    requires labels[i].Did? && labels[i].cmd.Join? && !labels[i].cmd.isCreate && labels[i].reply.Seated?
    requires labels[i].reply.id in states[i + 1].clients
    ensures
      var x := labels[i].reply.id;
      && x == states[i].nextId && states[i + 1].clients[x].stream != [] && states[i + 1].clients[x].stream[0].JoinResult?
      && states[i + 1].clients[x].stream[0].host == LastClaim(states, labels, i) == states[i].host
  {
    var x := labels[i].reply.id;
    StepBook(states, labels, i);
    HostIsLastClaim(states, labels, i);
    assert x in Kept(states[i + 1]).seats && !Kept(states[i + 1]).seats[x].held;
    GreetedByHost(states, labels, i + 1, x);
  }

  lemma JoinAsks(ss: seq<Session.Sys>, steps: seq<Session.Step>, j: nat)
    requires Session.Run(ss, steps) && j < |steps| && steps[j].DoJoin?
    ensures
      var x := ss[j].nextId;
      && x in ss[j + 1].nodes && ss[j + 1].nodes[x].end.v.hostId == ss[j].relayHost
      && |ss[j + 1].nodes[x].outbox| == 1 && ss[j + 1].nodes[x].outbox[0].ToOne? && ss[j + 1].nodes[x].outbox[0].to == ss[j].relayHost
  {
    assert Session.Takes(ss, steps, j);
  }
}
