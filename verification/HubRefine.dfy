/** The hub refines the plain membership machine, and every participant is told of exactly the
    abstract events, in order. Holding and resuming a slot are stuttering steps. */
module HubRefine {
  import opened Wire
  import opened HubSpec
  import opened HubViews
  import opened Membership

  function Abs(s: HubState): Roster {
    Roster(map id | id in s.clients :: s.clients[id].token, s.nextId)
  }

  predicate IsTraffic(f: Frame) {
    f.ParticipantJoined? || f.ParticipantLeft? || f.Direct? || f.Broadcast?
  }

  /** The notices and forwarded frames of a stream, in order: all but replies. */
  function Traffic(fs: seq<Frame>): seq<Frame> {
    if fs == [] then []
    else Traffic(fs[..|fs| - 1]) + (if IsTraffic(fs[|fs| - 1]) then [fs[|fs| - 1]] else [])
  }

  function Departures(t: Drops): seq<Event> {
    if t.Start? then [] else Departures(t.before) + [Depart(t.id)]
  }

  /** What the handler itself does to the membership. */
  function OwnEvents(s: HubState, cmd: Command): seq<Event> {
    match cmd
    case Join(_, _, token) => if |s.clients| < s.max then [Arrive(s.nextId, token)] else []
    case Leave(id, gen, unexpected) =>
      if LeaveMatches(s, id, gen) && !Holds(s, unexpected) then [Depart(id)] else []
    case GraceExpired(id, gen) => if ExpiryMatches(s, id, gen) then [Depart(id)] else []
    case _ => []
  }

  /** The abstract events of one command: its own, then one departure per eviction. */
  function Events(s: HubState, cmd: Command, t: Drops): seq<Event> {
    OwnEvents(s, cmd) + Departures(t)
  }

  /** What the handler itself sends to `x`, who was there before: a notice, or the frame to forward. */
  function OwnFrames(s: HubState, cmd: Command, x: Id): seq<Frame> {
    match cmd
    case Forward(from, ToOne(to, p)) => if to in s.clients && x == to then [Direct(from, to, p)] else []
    case Forward(from, ToAll(p)) => if x != from then [Broadcast(from, p)] else []
    case _ => NoticesOf(OwnEvents(s, cmd))
  }

  // ----- Streams -----

  lemma {:induction false} TrafficLocal(fs: seq<Frame>, gs: seq<Frame>)
    requires fs <= gs
    requires forall i :: |fs| <= i < |gs| ==> IsLocalReply(gs[i])
    ensures Traffic(gs) == Traffic(fs)
    decreases |gs|
  {
    if |gs| == |fs| {
      assert gs == fs;
    } else {
      TrafficLocal(fs, gs[..|gs| - 1]);
    }
  }

  /** The slot is on the same connection and has heard `ns` since. */
  predicate Heard(c: Client, ns: seq<Frame>, c': Client) {
    && c' == c.(stream := c'.stream, taken := c'.taken)
    && Traffic(c'.stream) == Traffic(c.stream) + ns
  }

  lemma OfferHeard(c: Client, f: Frame, c': Client, concurrent: bool)
    requires ChannelOk(c) && Queued(c, f, c', concurrent) && !c'.evicting
    ensures Heard(c, if IsTraffic(f) then [f] else [], c')
  {
    OfferAccepted(c, f, c', concurrent);
    var gs := c'.stream[..|c'.stream| - 1];
    assert forall i :: |c.stream| <= i < |gs| ==> IsLocalReply(gs[i]);
    TrafficLocal(c.stream, gs);
  }

  /** Everyone who is still there and keeps up has heard exactly `ns`. */
  ghost predicate AllHeard(s: HubState, ns: seq<Frame>, s': HubState) {
    forall x {:trigger HeardBy(s, ns, s', x)} :: x in s'.clients && !s'.clients[x].evicting ==> HeardBy(s, ns, s', x)
  }

  ghost predicate HeardBy(s: HubState, ns: seq<Frame>, s': HubState, x: Id) {
    x in s.clients && x in s'.clients && Heard(s.clients[x], ns, s'.clients[x])
  }

  lemma AllHeardMore(a: HubState, ns: seq<Frame>, b: HubState, ms: seq<Frame>, c: HubState)
    requires AllHeard(a, ns, b) && AllHeard(b, ms, c)
    ensures AllHeard(a, ns + ms, c)
  {
    forall x | x in c.clients && !c.clients[x].evicting ensures HeardBy(a, ns + ms, c, x) {
      assert HeardBy(b, ms, c, x);
      assert HeardBy(a, ns, b, x);
      assert Traffic(a.clients[x].stream) + ns + ms == Traffic(a.clients[x].stream) + (ns + ms);
    }
  }

  // ----- Drains -----

  lemma DropHeard(m: HubState, id: Id, m': HubState, concurrent: bool)
    requires Mid(m) && DrainStep(m, id, m', concurrent) && !m'.over
    ensures AllHeard(m, [ParticipantLeft(id)], m')
  {
    DrainStepKeeps(m, id, m', concurrent);
    ChannelsOk(m);
    RemoveHeard(PopEvict(m), id, m', concurrent);
    forall x | x in m'.clients && !m'.clients[x].evicting ensures HeardBy(m, [ParticipantLeft(id)], m', x) {
      assert HeardBy(PopEvict(m), [ParticipantLeft(id)], m', x);
    }
  }

  lemma RemoveHeard(s: HubState, id: Id, s': HubState, concurrent: bool)
    requires RemoveStep(s, id, s', concurrent) && id in s.clients && !s.over && !s'.over
    requires forall x :: x in s.clients ==> 1 <= x && ChannelOk(s.clients[x])
    ensures AllHeard(s, [ParticipantLeft(id)], s')
  {
    var w := Without(s, id);
    forall x | x in s'.clients && !s'.clients[x].evicting ensures HeardBy(s, [ParticipantLeft(id)], s', x) {
      assert Fanned(w, ParticipantLeft(id), 0, s', x, concurrent);
      OfferHeard(w.clients[x], ParticipantLeft(id), s'.clients[x], concurrent);
    }
  }

  lemma {:induction false} DrainHeard(s: HubState, t: Drops, s': HubState, concurrent: bool)
    requires Mid(s) && !s.over && DrainTrace(s, t, s', concurrent) && !s'.over
    ensures AllHeard(s, NoticesOf(Departures(t)), s')
  {
    if t.Start? {
      forall x | x in s.clients ensures HeardBy(s, NoticesOf(Departures(t)), s', x) {
        assert Traffic(s.clients[x].stream) + [] == Traffic(s.clients[x].stream);
      }
    } else {
      DrainHeard(s, t.before, t.at, concurrent);
      DrainMid(s, t.before, t.at, concurrent);
      DropHeard(t.at, t.id, s', concurrent);
      AllHeardMore(s, NoticesOf(Departures(t.before)), t.at, [ParticipantLeft(t.id)], s');
      assert NoticesOf(Departures(t)) == NoticesOf(Departures(t.before)) + [ParticipantLeft(t.id)];
    }
  }

  /** The evicted, in the order in which they were removed. */
  function Dropped(t: Drops): seq<Id> {
    if t.Start? then [] else Dropped(t.before) + [t.id]
  }

  lemma RemoveAppends(s: HubState, id: Id, s': HubState, concurrent: bool)
    requires RemoveStep(s, id, s', concurrent)
    ensures s.evict <= s'.evict
  {
  }

  lemma NextInOrder(all: seq<Id>, gone: seq<Id>, id: Id, waiting: seq<Id>, waiting': seq<Id>)
    requires all <= gone + ([id] + waiting) && waiting <= waiting'
    ensures all <= gone + [id] + waiting'
  {
    assert gone + ([id] + waiting) == gone + [id] + waiting;
    assert gone + [id] + waiting <= gone + [id] + waiting';
  }

  /** Participants are evicted in the order in which they overflowed: at every moment of a drain those gone
      and those waiting, in this order, begin with the list of any moment before. */
  lemma {:induction false} DrainInOrder(s: HubState, t: Drops, s': HubState, concurrent: bool)
    requires DrainTrace(s, t, s', concurrent)
    ensures s.evict <= Dropped(t) + s'.evict
  {
    if t.Drop? {
      DrainInOrder(s, t.before, t.at, concurrent);
      DropInOrder(t.at, t.id, s', concurrent);
      NextInOrder(s.evict, Dropped(t.before), t.id, t.at.evict[1..], s'.evict);
    }
  }

  lemma DropInOrder(m: HubState, id: Id, s': HubState, concurrent: bool)
    requires DrainStep(m, id, s', concurrent)
    ensures m.evict != [] && m.evict == [id] + m.evict[1..] && m.evict[1..] <= s'.evict
  {
    RemoveAppends(PopEvict(m), id, s', concurrent);
  }

  lemma ChannelsOk(s: HubState)
    requires Mid(s)
    ensures forall x :: x in s.clients ==> 1 <= x && ChannelOk(s.clients[x])
  {
    forall x | x in s.clients ensures ChannelOk(s.clients[x]) {
      assert SlotOk(s, x);
    }
  }

  // ----- Abstract state -----

  lemma BroadcastAbs(s: HubState, f: Frame, except: Id, s': HubState, concurrent: bool)
    requires BroadcastStep(s, f, except, s', concurrent)
    ensures Abs(s') == Abs(s)
  {
    forall x | x in s.clients ensures s'.clients[x].token == s.clients[x].token {
      assert Fanned(s, f, except, s', x, concurrent);
    }
  }

  lemma SendAbs(s: HubState, to: Id, f: Frame, s': HubState, concurrent: bool)
    requires SendStep(s, to, f, s', concurrent)
    ensures Abs(s') == Abs(s)
  {
    if to in s.clients {
      forall x | x in s.clients ensures s'.clients[x].token == s.clients[x].token {
        assert Sent(s, f, to, s', x, concurrent);
      }
    }
  }

  lemma RemoveAbs(s: HubState, id: Id, s': HubState, concurrent: bool)
    requires RemoveStep(s, id, s', concurrent) && id in s.clients
    ensures Enabled(Abs(s), Depart(id)) && Abs(s') == Apply(Abs(s), Depart(id))
  {
    var w := Without(s, id);
    assert Abs(w) == Apply(Abs(s), Depart(id));
    if |s.clients - {id}| != 0 {
      BroadcastAbs(w, ParticipantLeft(id), 0, s', concurrent);
    }
  }

  lemma {:induction false} DrainAbs(s: HubState, t: Drops, s': HubState, concurrent: bool)
    requires Mid(s) && !s.over && DrainTrace(s, t, s', concurrent)
    ensures EnabledAll(Abs(s), Departures(t)) && Abs(s') == ApplyAll(Abs(s), Departures(t))
  {
    if t.Drop? {
      DrainAbs(s, t.before, t.at, concurrent);
      DrainMid(s, t.before, t.at, concurrent);
      DrainStepKeeps(t.at, t.id, s', concurrent);
      RemoveAbs(PopEvict(t.at), t.id, s', concurrent);
      ApplyMore(Abs(s), Departures(t.before), Depart(t.id));
    }
  }

  lemma ForwardAbs(s: HubState, from: Id, msg: Routed, s': HubState, concurrent: bool)
    requires ForwardStep(s, from, msg, s', concurrent)
    ensures Abs(s') == Abs(s)
  {
    match msg {
      case BadDirect => SendAbs(s, from, Error(ERR_BAD_FRAME), s', concurrent);
      case BadBroadcast => SendAbs(s, from, Error(ERR_BAD_FRAME), s', concurrent);
      case ToOne(to, p) =>
        if to in s.clients {
          SendAbs(s, to, Direct(from, to, p), s', concurrent);
        } else {
          SendAbs(s, from, Error(ERR_UNKNOWN_PEER), s', concurrent);
        }
      case ToAll(p) => BroadcastAbs(s, Broadcast(from, p), from, s', concurrent);
    }
  }

  /** `es` leads the plain machine from the abstraction of `s` to that of `s'`. */
  ghost predicate Does(s: HubState, es: seq<Event>, s': HubState) {
    EnabledAll(Abs(s), es) && Abs(s') == ApplyAll(Abs(s), es)
  }

  lemma JoinDoes(s: HubState, isCreate: bool, conn: ConnId, token: Token, reply: Reply, m: HubState, concurrent: bool)
    requires Mid(s) && s.nextId + 1 < ID_SPACE && JoinStep(s, isCreate, conn, token, reply, m, concurrent)
    requires |s.clients| < s.max
    ensures Does(s, [Arrive(s.nextId, token)], m)
  {
    var r := Registered(s, isCreate, conn, token);
    assert s.nextId !in s.clients;
    assert Abs(r) == Apply(Abs(s), Arrive(s.nextId, token));
    BroadcastAbs(r, ParticipantJoined(s.nextId), s.nextId, m, concurrent);
    ApplyOne(Abs(s), Arrive(s.nextId, token));
  }

  lemma RemoveDoes(s: HubState, id: Id, m: HubState, concurrent: bool)
    requires RemoveStep(s, id, m, concurrent) && id in s.clients
    ensures Does(s, [Depart(id)], m)
  {
    RemoveAbs(s, id, m, concurrent);
    ApplyOne(Abs(s), Depart(id));
  }

  lemma CloseDoes(s: HubState, reason: string, m: HubState, concurrent: bool)
    requires CloseStep(s, reason, m, concurrent)
    ensures Abs(m) == Abs(s)
  {
    var b :| BroadcastStep(s, SessionClosed(reason), 0, b, concurrent) && m == Ended(b);
    BroadcastAbs(s, SessionClosed(reason), 0, b, concurrent);
  }

  lemma HandlerDoes(s: HubState, cmd: Command, reply: Reply, m: HubState, concurrent: bool)
    requires Mid(s) && HandlerStep(s, cmd, reply, m, concurrent)
    requires cmd.Join? ==> s.nextId + 1 < ID_SPACE
    ensures Does(s, OwnEvents(s, cmd), m)
  {
    match cmd {
      case Join(isCreate, conn, token) =>
        if |s.clients| < s.max { JoinDoes(s, isCreate, conn, token, reply, m, concurrent); }
      case Leave(id, gen, unexpected) =>
        if LeaveMatches(s, id, gen) && !Holds(s, unexpected) { RemoveDoes(s, id, m, concurrent); }
      case GraceExpired(id, gen) =>
        if ExpiryMatches(s, id, gen) { RemoveDoes(s, id, m, concurrent); }
      case Forward(from, msg) => ForwardAbs(s, from, msg, m, concurrent);
      case Close(reason) => CloseDoes(s, reason, m, concurrent);
      case _ =>
    }
  }

  /** Every command, with the evictions it causes, is the listed run of the plain machine. */
  lemma CommandRefines(s: HubState, cmd: Command, reply: Reply, t: Drops, s': HubState, concurrent: bool)
    requires Boundary(s) && CommandStep(s, cmd, reply, t, s', concurrent)
    requires cmd.Join? ==> s.nextId + 1 < ID_SPACE
    ensures Does(s, Events(s, cmd, t), s')
  {
    var m :| HandlerStep(s, cmd, reply, m, concurrent) && DrainUnlessOver(m, t, s', concurrent);
    HandlerDoes(s, cmd, reply, m, concurrent);
    HandlerKeeps(s, cmd, reply, m, concurrent);
    if m.over {
      assert Events(s, cmd, t) == OwnEvents(s, cmd);
    } else {
      DrainAbs(m, t, s', concurrent);
      ApplyConcat(Abs(s), OwnEvents(s, cmd), Departures(t));
    }
  }

  // ----- Whole runs -----

  function StepEvents(s: HubState, l: Label): seq<Event> {
    match l
    case Quiet => []
    case Did(cmd, _, t) => Events(s, cmd, t)
  }

  function RunEvents(states: seq<HubState>, labels: seq<Label>, i: nat): seq<Event>
    requires |states| == |labels| + 1 && i <= |labels|
  {
    if i == 0 then [] else RunEvents(states, labels, i - 1) + StepEvents(states[i - 1], labels[i - 1])
  }

  /** In every run the hub's members, tokens and counter are those of the plain machine after
      the run's abstract events. */
  lemma RunRefines(states: seq<HubState>, labels: seq<Label>, i: nat)
    requires Run(states, labels) && i <= |labels|
    ensures Reaches(RunEvents(states, labels, i), states[i])
  {
    var es := RunRefinesBy(states, labels, i);
  }

  /** The same with the events built up along the run. */
  lemma {:induction false} RunRefinesBy(states: seq<HubState>, labels: seq<Label>, i: nat) returns (es: seq<Event>)
    requires Run(states, labels) && i <= |labels|
    ensures es == RunEvents(states, labels, i) && Reaches(es, states[i])
  {
    if i == 0 {
      es := RefinesNothing(states, labels);
    } else {
      var before := RunRefinesBy(states, labels, i - 1);
      es := RefinesMore(states, labels, i - 1, before);
    }
  }

  lemma RefinesNothing(states: seq<HubState>, labels: seq<Label>) returns (es: seq<Event>)
    requires Run(states, labels)
    ensures es == RunEvents(states, labels, 0) && Reaches(es, states[0])
  {
    es := [];
    StartRefines(states[0]);
  }

  lemma RefinesMore(states: seq<HubState>, labels: seq<Label>, i: nat, before: seq<Event>) returns (es: seq<Event>)
    requires Run(states, labels) && i < |labels| && before == RunEvents(states, labels, i) && Reaches(before, states[i])
    ensures es == RunEvents(states, labels, i + 1) && Reaches(es, states[i + 1])
  {
    var more := StepEvents(states[i], labels[i]);
    StepRefines(states, labels, i);
    DoesMore(before, states[i], more, states[i + 1]);
    es := before + more;
  }

  /** `es` is a run of the plain machine, and it ends in the roster of `s`. */
  ghost predicate Reaches(es: seq<Event>, s: HubState) {
    var empty := Roster(map[], HOST_ID);
    EnabledAll(empty, es) && Abs(s) == ApplyAll(empty, es)
  }

  lemma StartRefines(s: HubState)
    requires Init(s)
    ensures Reaches([], s)
  {
    assert Abs(s).members == map[];
  }

  lemma DoesMore(es: seq<Event>, s: HubState, fs: seq<Event>, s': HubState)
    requires Reaches(es, s) && Does(s, fs, s')
    ensures Reaches(es + fs, s')
  {
    ApplyConcat(Roster(map[], HOST_ID), es, fs);
  }

  lemma StepRefines(states: seq<HubState>, labels: seq<Label>, i: nat)
    requires Run(states, labels) && i < |labels|
    ensures Does(states[i], StepEvents(states[i], labels[i]), states[i + 1])
  {
    RunKeeps(states, labels, i);
    var s, l, s' := states[i], labels[i], states[i + 1];
    assert Takes(states, labels, i);
    match l {
      case Quiet =>
        forall x | x in s.clients ensures s'.clients[x].token == s.clients[x].token {
          assert Drift(s.clients[x], s'.clients[x], true);
        }
        assert Abs(s') == Abs(s);
      case Did(cmd, reply, t) => CommandRefines(s, cmd, reply, t, s', true);
    }
  }

  // ----- Who hears what -----

  lemma JoinHeard(s: HubState, isCreate: bool, conn: ConnId, token: Token, reply: Reply, m: HubState, concurrent: bool, x: Id)
    requires JoinStep(s, isCreate, conn, token, reply, m, concurrent) && |s.clients| < s.max
    requires x in s.clients && x < s.nextId && !m.clients[x].evicting && ChannelOk(s.clients[x])
    ensures Heard(s.clients[x], NoticesOf([Arrive(s.nextId, token)]), m.clients[x])
  {
    var r := Registered(s, isCreate, conn, token);
    assert Fanned(r, ParticipantJoined(s.nextId), s.nextId, m, x, concurrent);
    OfferHeard(r.clients[x], ParticipantJoined(s.nextId), m.clients[x], concurrent);
    assert NoticesOf([Arrive(s.nextId, token)]) == [ParticipantJoined(s.nextId)];
  }

  lemma DepartHeard(s: HubState, id: Id, m: HubState, concurrent: bool, x: Id)
    requires Mid(s) && RemoveStep(s, id, m, concurrent) && id in s.clients && !s.over && !m.over
    requires x in m.clients && !m.clients[x].evicting
    ensures x in s.clients && Heard(s.clients[x], NoticesOf([Depart(id)]), m.clients[x])
  {
    ChannelsOk(s);
    RemoveHeard(s, id, m, concurrent);
    assert HeardBy(s, [ParticipantLeft(id)], m, x);
    assert NoticesOf([Depart(id)]) == [ParticipantLeft(id)];
  }

  lemma HandlerHeard(s: HubState, cmd: Command, reply: Reply, m: HubState, concurrent: bool, x: Id)
    requires Mid(s) && HandlerStep(s, cmd, reply, m, concurrent) && !s.over && !m.over
    requires cmd.Join? ==> s.nextId + 1 < ID_SPACE
    requires x in s.clients && x in m.clients && !m.clients[x].evicting && m.clients[x].gen == s.clients[x].gen
    ensures Heard(s.clients[x], OwnFrames(s, cmd, x), m.clients[x])
  {
    assert ChannelOk(s.clients[x]) by { assert SlotOk(s, x); }
    assert Traffic(s.clients[x].stream) + [] == Traffic(s.clients[x].stream);
    match cmd {
      case Join(isCreate, conn, token) =>
        if |s.clients| < s.max { JoinHeard(s, isCreate, conn, token, reply, m, concurrent, x); }
      case Leave(id, gen, unexpected) =>
        if LeaveMatches(s, id, gen) && !Holds(s, unexpected) { DepartHeard(s, id, m, concurrent, x); }
      case GraceExpired(id, gen) =>
        if ExpiryMatches(s, id, gen) { DepartHeard(s, id, m, concurrent, x); }
      case Forward(from, msg) => ForwardHeard(s, from, msg, m, concurrent, x);
      case _ =>
    }
  }

  lemma ForwardHeard(s: HubState, from: Id, msg: Routed, m: HubState, concurrent: bool, x: Id)
    requires ForwardStep(s, from, msg, m, concurrent)
    requires x in s.clients && x in m.clients && !m.clients[x].evicting && ChannelOk(s.clients[x])
    ensures Heard(s.clients[x], OwnFrames(s, Forward(from, msg), x), m.clients[x])
  {
    assert Traffic(s.clients[x].stream) + [] == Traffic(s.clients[x].stream);
    match msg {
      case BadDirect => SendHeard(s, from, Error(ERR_BAD_FRAME), m, concurrent, x);
      case BadBroadcast => SendHeard(s, from, Error(ERR_BAD_FRAME), m, concurrent, x);
      case ToOne(to, p) =>
        if to in s.clients {
          SendHeard(s, to, Direct(from, to, p), m, concurrent, x);
        } else {
          SendHeard(s, from, Error(ERR_UNKNOWN_PEER), m, concurrent, x);
        }
      case ToAll(p) =>
        assert Fanned(s, Broadcast(from, p), from, m, x, concurrent);
        if x != from { OfferHeard(s.clients[x], Broadcast(from, p), m.clients[x], concurrent); }
    }
  }

  lemma SendHeard(s: HubState, to: Id, f: Frame, m: HubState, concurrent: bool, x: Id)
    requires SendStep(s, to, f, m, concurrent)
    requires x in s.clients && x in m.clients && !m.clients[x].evicting && ChannelOk(s.clients[x])
    ensures Heard(s.clients[x], if x == to && IsTraffic(f) then [f] else [], m.clients[x])
  {
    assert Traffic(s.clients[x].stream) + [] == Traffic(s.clients[x].stream);
    if to in s.clients {
      assert Sent(s, f, to, m, x, concurrent);
      if x == to { OfferHeard(s.clients[x], f, m.clients[x], concurrent); }
    }
  }

  /** Every participant that stays on its connection is sent exactly the command's own frame and then
      one notice for each eviction, in order. */
  lemma CommandHeard(s: HubState, cmd: Command, reply: Reply, t: Drops, s': HubState, concurrent: bool, x: Id)
    requires Boundary(s) && CommandStep(s, cmd, reply, t, s', concurrent) && !s'.over
    requires cmd.Join? ==> s.nextId + 1 < ID_SPACE
    requires x in s.clients && x in s'.clients && s'.clients[x].gen == s.clients[x].gen
    ensures Heard(s.clients[x], OwnFrames(s, cmd, x) + NoticesOf(Departures(t)), s'.clients[x])
  {
    var m :| HandlerStep(s, cmd, reply, m, concurrent) && DrainUnlessOver(m, t, s', concurrent);
    HandlerKeeps(s, cmd, reply, m, concurrent);
    DrainMid(m, t, s', concurrent);
    assert x !in s'.evict;
    DrainHeard(m, t, s', concurrent);
    assert HeardBy(m, NoticesOf(Departures(t)), s', x);
    HandlerHeard(s, cmd, reply, m, concurrent, x);
    HeardThen(s.clients[x], OwnFrames(s, cmd, x), m.clients[x], NoticesOf(Departures(t)), s'.clients[x]);
  }

  lemma HeardThen(a: Client, ns: seq<Frame>, b: Client, ms: seq<Frame>, c: Client)
    requires Heard(a, ns, b) && Heard(b, ms, c)
    ensures Heard(a, ns + ms, c)
  {
    assert Traffic(a.stream) + ns + ms == Traffic(a.stream) + (ns + ms);
  }

  // ----- Drop and resume -----

  /** The command holds a slot after an unexpected drop, or reclaims one. */
  predicate Stutters(s: HubState, cmd: Command) {
    match cmd
    case Leave(id, gen, unexpected) => LeaveMatches(s, id, gen) && Holds(s, unexpected)
    case Resume(id, token, _) => ResumeMatches(s, id, token)
    case _ => false
  }

  /** Holding and resuming are invisible: nobody departs or arrives, the slot keeps its id and
      token, the session its occupancy, and no other participant's slot changes at all. */
  lemma DropAndResumeInvisible(s: HubState, cmd: Command, reply: Reply, t: Drops, s': HubState, concurrent: bool)
    requires Boundary(s) && CommandStep(s, cmd, reply, t, s', concurrent) && Stutters(s, cmd)
    ensures t == Start && Events(s, cmd, t) == [] && Abs(s') == Abs(s) && !s'.over
    ensures s'.clients[cmd.id].token == s.clients[cmd.id].token
    ensures forall x :: x in s.clients && x != cmd.id ==> s'.clients[x] == s.clients[x]
  {
    var m :| HandlerStep(s, cmd, reply, m, concurrent) && DrainUnlessOver(m, t, s', concurrent);
    NothingToDrain(m, t, s', concurrent);
    CommandRefines(s, cmd, reply, t, s', concurrent);
  }

  /** Grace expiry is one departure of the slot's own id, followed by the evictions that its
      notices cause; and nobody departs twice. */
  lemma ExpiryIsOneDeparture(s: HubState, id: Id, gen: nat, t: Drops, s': HubState, concurrent: bool)
    requires Boundary(s) && CommandStep(s, GraceExpired(id, gen), Silent, t, s', concurrent)
    requires ExpiryMatches(s, id, gen)
    ensures Events(s, GraceExpired(id, gen), t) == [Depart(id)] + Departures(t)
    ensures DropsOnce(t) && id !in IdSet(t) && s'.clients.Keys == s.clients.Keys - {id} - IdSet(t)
  {
    var cmd := GraceExpired(id, gen);
    var m :| HandlerStep(s, cmd, Silent, m, concurrent) && DrainUnlessOver(m, t, s', concurrent);
    HandlerKeeps(s, cmd, Silent, m, concurrent);
    RemoveKeeps(s, id, m, concurrent);
    if !m.over {
      DrainRemoves(m, t, s', concurrent);
    }
  }
}
