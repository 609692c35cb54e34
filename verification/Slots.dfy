/** Who owns a slot: the hub together with its connections and grace timers.

    A connection asks for a seat, holds it, and when it ends owes the hub one leave command. A
    held slot is owned by its timer instead. Commands waiting in the inbox may be handled in any
    order, which includes the order in which they were sent. */
module Slots {
  import opened Wire
  import opened HubSpec
  import opened HubViews

  // ----- What a command leaves alone -----

  predicate SameSlot(c: Client, c': Client) {
    c' == c.(stream := c'.stream, taken := c'.taken, evicting := c'.evicting)
  }

  ghost predicate SlotCarried(s: HubState, s': HubState, x: Id) {
    x in s'.clients ==>
      x in s.clients && SameSlot(s.clients[x], s'.clients[x]) && (s.clients[x].evicting ==> s'.clients[x].evicting)
  }

  /** Was connection `k` that of a participant now gone or about to go? */
  ghost predicate Shed(s: HubState, s': HubState, k: ConnId) {
    exists x :: x in s.clients && s.clients[x].conn == k && (x !in s'.clients || s'.clients[x].evicting)
  }

  /** From `s` to `s'` slots were only filled, marked or removed, and only lost ones kicked. */
  ghost predicate Carried(s: HubState, s': HubState) {
    && s'.nextChan == s.nextChan && s'.nextId == s.nextId
    && (forall x {:trigger SlotCarried(s, s', x)} :: SlotCarried(s, s', x))
    && (forall k :: k in s'.kicked && k !in s.kicked ==> Shed(s, s', k))
  }

  lemma CarriedMore(a: HubState, b: HubState, c: HubState)
    requires Carried(a, b) && Carried(b, c)
    ensures Carried(a, c)
  {
    forall x ensures SlotCarried(a, c, x) {
      assert SlotCarried(a, b, x) && SlotCarried(b, c, x);
    }
    forall k | k in c.kicked && k !in a.kicked ensures Shed(a, c, k) {
      if k in b.kicked {
        var x :| x in a.clients && a.clients[x].conn == k && (x !in b.clients || b.clients[x].evicting);
        assert SlotCarried(b, c, x);
      } else {
        var x :| x in b.clients && b.clients[x].conn == k && (x !in c.clients || c.clients[x].evicting);
        assert SlotCarried(a, b, x);
      }
    }
  }

  lemma BroadcastCarries(s: HubState, f: Frame, except: Id, s': HubState, concurrent: bool)
    requires BroadcastStep(s, f, except, s', concurrent)
    ensures Carried(s, s')
  {
    forall x ensures SlotCarried(s, s', x) {
      if x in s.clients { assert Fanned(s, f, except, s', x, concurrent); }
    }
    KicksShed(s, s');
  }

  lemma KicksShed(s: HubState, s': HubState)
    requires EvictGrew(s, s')
    ensures forall k :: k in s'.kicked && k !in s.kicked ==> Shed(s, s', k)
  {
    forall k | k in s'.kicked && k !in s.kicked ensures Shed(s, s', k) {
      assert k in KickedConns(s, s');
    }
  }

  lemma SendCarries(s: HubState, to: Id, f: Frame, s': HubState, concurrent: bool)
    requires SendStep(s, to, f, s', concurrent)
    ensures Carried(s, s')
  {
    if to in s.clients {
      forall x ensures SlotCarried(s, s', x) {
        if x in s.clients { assert Sent(s, f, to, s', x, concurrent); }
      }
      KicksShed(s, s');
    }
  }

  lemma WithoutCarries(s: HubState, id: Id)
    requires id in s.clients
    ensures Carried(s, Without(s, id))
  {
    assert Shed(s, Without(s, id), s.clients[id].conn);
  }

  lemma RemoveCarries(s: HubState, id: Id, s': HubState, concurrent: bool)
    requires RemoveStep(s, id, s', concurrent) && id in s.clients
    ensures Carried(Without(s, id), s')
  {
    CarriedSame(Without(s, id));
    if |s.clients - {id}| != 0 {
      BroadcastCarries(Without(s, id), ParticipantLeft(id), 0, s', concurrent);
    }
  }

  lemma DropCarries(m: HubState, id: Id, s': HubState, concurrent: bool)
    requires DrainStep(m, id, s', concurrent)
    ensures Carried(m, s')
  {
    var p := PopEvict(m);
    CarriedSame(p);
    assert Carried(m, p);
    if id in p.clients {
      RemoveCarries(p, id, s', concurrent);
      WithoutCarries(p, id);
      CarriedMore(p, Without(p, id), s');
    }
    CarriedMore(m, p, s');
  }

  lemma {:induction false} DrainCarries(s: HubState, t: Drops, s': HubState, concurrent: bool)
    requires DrainTrace(s, t, s', concurrent)
    ensures Carried(s, s')
  {
    if t.Drop? {
      DrainCarries(s, t.before, t.at, concurrent);
      DropCarries(t.at, t.id, s', concurrent);
      CarriedMore(s, t.at, s');
    }
  }

  /** The state right after the handler filled a seat, held it, handed it over or cleared it. */
  function Base(s: HubState, cmd: Command): HubState {
    match cmd
    case Join(isCreate, conn, token) => if |s.clients| < s.max then Registered(s, isCreate, conn, token) else s
    case Leave(id, gen, unexpected) =>
      if !LeaveMatches(s, id, gen) then s else if Holds(s, unexpected) then HeldSlot(s, id) else Without(s, id)
    case GraceExpired(id, gen) => if ExpiryMatches(s, id, gen) then Without(s, id) else s
    case Resume(id, token, conn) =>
      if ResumeMatches(s, id, token) && s.clients[id].taken <= |s.clients[id].stream| then ResumedSlot(s, id, conn) else s
    case ClaimHost(id) => if id in s.clients then s.(host := id) else s
    case _ => s
  }

  lemma ForwardCarries(s: HubState, from: Id, msg: Routed, s': HubState, concurrent: bool)
    requires ForwardStep(s, from, msg, s', concurrent)
    ensures Carried(s, s')
  {
    match msg {
      case BadDirect => SendCarries(s, from, Error(ERR_BAD_FRAME), s', concurrent);
      case BadBroadcast => SendCarries(s, from, Error(ERR_BAD_FRAME), s', concurrent);
      case ToOne(to, p) =>
        if to in s.clients {
          SendCarries(s, to, Direct(from, to, p), s', concurrent);
        } else {
          SendCarries(s, from, Error(ERR_UNKNOWN_PEER), s', concurrent);
        }
      case ToAll(p) => BroadcastCarries(s, Broadcast(from, p), from, s', concurrent);
    }
  }

  lemma CarriedSame(s: HubState)
    ensures Carried(s, s)
  {
  }

  lemma HandlerCarries(s: HubState, cmd: Command, reply: Reply, m: HubState, concurrent: bool)
    requires HandlerStep(s, cmd, reply, m, concurrent) && !m.over
    ensures Carried(Base(s, cmd), m)
  {
    CarriedSame(m);
    match cmd {
      case Join(isCreate, conn, token) =>
        if |s.clients| < s.max {
          BroadcastCarries(Registered(s, isCreate, conn, token), ParticipantJoined(s.nextId), s.nextId, m, concurrent);
        }
      case Leave(id, gen, unexpected) =>
        if LeaveMatches(s, id, gen) && !Holds(s, unexpected) { RemoveCarries(s, id, m, concurrent); }
      case GraceExpired(id, gen) =>
        if ExpiryMatches(s, id, gen) { RemoveCarries(s, id, m, concurrent); }
      case Forward(from, msg) => ForwardCarries(s, from, msg, m, concurrent);
      case _ =>
    }
  }

  lemma CommandCarries(s: HubState, cmd: Command, reply: Reply, t: Drops, s': HubState, concurrent: bool)
    requires CommandStep(s, cmd, reply, t, s', concurrent) && !s'.over
    ensures Carried(Base(s, cmd), s')
  {
    var m :| HandlerStep(s, cmd, reply, m, concurrent) && DrainUnlessOver(m, t, s', concurrent);
    HandlerCarries(s, cmd, reply, m, concurrent);
    DrainCarries(m, t, s', concurrent);
    CarriedMore(Base(s, cmd), m, s');
  }

  // ----- Connections and timers -----

  datatype Conn =
    | Asking(cmd: Command)                                          // its join or resume is in the inbox
    | Live(id: Id, gen: nat, chan: nat)                             // seated; owes its leave
    | Leaving(id: Id, gen: nat, chan: nat, unexpected: bool)        // its leave is in the inbox
    | Gone(was: Option<nat>)                                        // finished; the channel it was given, if any

  datatype System = System(hub: HubState, conns: map<ConnId, Conn>, armed: set<(Id, nat)>, fired: set<(Id, nat)>)

  predicate Owes(c: Conn, id: Id, gen: nat) {
    (c.Live? || c.Leaving?) && c.id == id && c.gen == gen
  }

  function ChanOf(c: Conn): Option<nat> {
    match c
    case Asking(_) => None
    case Live(_, _, chan) => Some(chan)
    case Leaving(_, _, chan, _) => Some(chan)
    case Gone(was) => was
  }

  predicate StillHeld(h: HubState, p: (Id, nat)) {
    p.0 in h.clients && h.clients[p.0].held && h.clients[p.0].gen == p.1
  }

  /** Removing or resuming a slot stops its timer; holding one starts a new timer. */
  function Timers(armed: set<(Id, nat)>, h: HubState, h': HubState): set<(Id, nat)> {
    (set p | p in armed && StillHeld(h', p)) +
    (set x | x in h'.clients && h'.clients[x].held && !StillHeld(h, (x, h'.clients[x].gen)) :: (x, h'.clients[x].gen))
  }

  function Answered(reply: Reply): Conn {
    match reply
    case Seated(id, gen, chan) => Live(id, gen, chan)
    case _ => Gone(None)
  }

  datatype Action =
    | Dial(k: ConnId, cmd: Command)
    | Answer(k: ConnId, reply: Reply, t: Drops)
    | End(k: ConnId, unexpected: bool)
    | TakeLeave(k: ConnId, t: Drops)
    | Fire(p: (Id, nat))
    | TakeExpiry(p: (Id, nat), t: Drops)
    | Serve(cmd: Command, t: Drops)
    | Use

  predicate AsksFor(cmd: Command, k: ConnId) {
    (cmd.Join? || cmd.Resume?) && cmd.conn == k
  }

  /** The hub handles `cmd`; timers follow. Ids have not run out. */
  ghost predicate HubTakes(y: System, cmd: Command, reply: Reply, t: Drops, y': System) {
    && (cmd.Join? ==> y.hub.nextId + 1 < ID_SPACE)
    && CommandStep(y.hub, cmd, reply, t, y'.hub, true)
    && y'.armed == Timers(y.armed, y.hub, y'.hub)
  }

  ghost predicate SysNext(y: System, a: Action, y': System) {
    match a
    case Dial(k, cmd) =>
      k !in y.conns && AsksFor(cmd, k) && y' == y.(conns := y.conns[k := Asking(cmd)])
    case Answer(k, reply, t) =>
      && k in y.conns && y.conns[k].Asking?
      && HubTakes(y, y.conns[k].cmd, reply, t, y')
      && y' == y.(hub := y'.hub, armed := y'.armed, conns := y.conns[k := Answered(reply)])
    case End(k, unexpected) =>
      && k in y.conns && y.conns[k].Live?
      && var c := y.conns[k]; y' == y.(conns := y.conns[k := Leaving(c.id, c.gen, c.chan, unexpected)])
    case TakeLeave(k, t) =>
      && k in y.conns && y.conns[k].Leaving?
      && var c := y.conns[k];
         && HubTakes(y, Leave(c.id, c.gen, c.unexpected), Silent, t, y')
         && y' == y.(hub := y'.hub, armed := y'.armed, conns := y.conns[k := Gone(Some(c.chan))])
    case Fire(p) =>
      p in y.armed && y' == y.(armed := y.armed - {p}, fired := y.fired + {p})
    case TakeExpiry(p, t) =>
      && p in y.fired
      && HubTakes(y, GraceExpired(p.0, p.1), Silent, t, y')
      && y' == y.(hub := y'.hub, armed := y'.armed, fired := y.fired - {p})
    case Serve(cmd, t) =>
      && (cmd.ClaimHost? || cmd.Forward? || cmd.Stats? || cmd.Close?)
      && HubTakes(y, cmd, Silent, t, y')
      && y' == y.(hub := y'.hub, armed := y'.armed)
    case Use =>
      DriftStep(y.hub, y'.hub) && y' == y.(hub := y'.hub)
  }

  ghost predicate SysRun(ys: seq<System>, acts: seq<Action>) {
    && |ys| == |acts| + 1
    && Init(ys[0].hub) && ys[0] == System(ys[0].hub, map[], {}, {})
    && forall i :: 0 <= i < |acts| ==> SysNext(ys[i], acts[i], ys[i + 1])
  }

  // ----- The invariant -----

  /** Exactly one owner: the connection `c.conn` while live, one timer while held. */
  ghost predicate SlotOwned(y: System, x: Id)
    requires x in y.hub.clients
  {
    var c := y.hub.clients[x];
    && c.chan < y.hub.nextChan
    && c.conn in y.conns
    && (c.held ==>
          && y.conns[c.conn].Gone?
          && ((x, c.gen) in y.armed <==> (x, c.gen) !in y.fired)
          && (forall k :: k in y.conns ==> !Owes(y.conns[k], x, c.gen) && ChanOf(y.conns[k]) != Some(c.chan)))
    && (!c.held ==>
          && Owes(y.conns[c.conn], x, c.gen) && ChanOf(y.conns[c.conn]) == Some(c.chan)
          && c.conn !in y.hub.kicked
          && (forall k :: k in y.conns && Owes(y.conns[k], x, c.gen) ==> k == c.conn))
  }

  ghost predicate ConnOk(y: System, k: ConnId)
    requires k in y.conns
  {
    var c := y.conns[k];
    && (c.Asking? ==> AsksFor(c.cmd, k) && k !in y.hub.kicked)
    && (c.Live? || c.Leaving? ==> c.id < y.hub.nextId && (c.id in y.hub.clients ==> c.gen <= y.hub.clients[c.id].gen))
    && (ChanOf(c).Some? ==> ChanOf(c).value < y.hub.nextChan)
  }

  predicate TimerOk(y: System, p: (Id, nat)) {
    && p.0 < y.hub.nextId
    && (p.0 in y.hub.clients ==> p.1 <= y.hub.clients[p.0].gen && (p.1 == y.hub.clients[p.0].gen ==> y.hub.clients[p.0].held))
  }

  /** No channel was ever given to two connections. */
  ghost predicate OneReader(conns: map<ConnId, Conn>) {
    forall j, k :: j in conns && k in conns && j != k && ChanOf(conns[j]).Some? ==> ChanOf(conns[j]) != ChanOf(conns[k])
  }

  ghost predicate OneChannel(h: HubState) {
    forall x, z :: x in h.clients && z in h.clients && x != z ==> h.clients[x].chan != h.clients[z].chan
  }

  ghost predicate OwnersOk(y: System) {
    && (forall x {:trigger SlotOwned(y, x)} :: x in y.hub.clients ==> SlotOwned(y, x))
    && (forall k {:trigger ConnOk(y, k)} :: k in y.conns ==> ConnOk(y, k))
    && OneReader(y.conns) && OneChannel(y.hub)
    && (forall p {:trigger TimerOk(y, p)} :: p in y.fired ==> TimerOk(y, p))
    && (forall p :: p in y.armed ==> StillHeld(y.hub, p) && p !in y.fired)
    && y.hub.kicked <= y.conns.Keys
  }

  ghost predicate SysInv(y: System) {
    !y.hub.over ==> Boundary(y.hub) && OwnersOk(y)
  }

  // ----- Preservation -----

  lemma TimersCarried(armed: set<(Id, nat)>, h: HubState, b: HubState, h': HubState)
    requires Carried(b, h')
    ensures forall p :: p in Timers(armed, h, h') <==> p in Timers(armed, h, b) && StillHeld(h', p)
  {
    forall p ensures p in Timers(armed, h, h') <==> p in Timers(armed, h, b) && StillHeld(h', p) {
      assert SlotCarried(b, h', p.0);
    }
  }

  /** Filling, marking and removing slots keeps every owner. */
  lemma CarriedOwners(y: System, h': HubState, armed': set<(Id, nat)>)
    requires OwnersOk(y) && Carried(y.hub, h')
    requires forall x :: x in h'.clients ==> !h'.clients[x].evicting
    requires forall p :: p in armed' <==> p in y.armed && StillHeld(h', p)
    ensures OwnersOk(y.(hub := h', armed := armed'))
  {
    var y' := y.(hub := h', armed := armed');
    forall x | x in h'.clients ensures SlotOwned(y', x) {
      assert SlotCarried(y.hub, h', x) && SlotOwned(y, x);
      if !h'.clients[x].held {
        ShedIsAnother(y, h', x);
      }
    }
    forall k | k in y.conns ensures ConnOk(y', k) {
      assert ConnOk(y, k);
      CarriedConn(y, h', k);
    }
    forall p | p in y.fired ensures TimerOk(y', p) {
      assert TimerOk(y, p) && SlotCarried(y.hub, h', p.0);
    }
    forall x, z | x in h'.clients && z in h'.clients && x != z ensures h'.clients[x].chan != h'.clients[z].chan {
      assert SlotCarried(y.hub, h', x) && SlotCarried(y.hub, h', z);
    }
    forall k | k in h'.kicked ensures k in y.conns {
      if k !in y.hub.kicked {
        var x :| x in y.hub.clients && y.hub.clients[x].conn == k && (x !in h'.clients || h'.clients[x].evicting);
        assert SlotOwned(y, x);
      }
    }
  }

  lemma CarriedConn(y: System, h': HubState, k: ConnId)
    requires OwnersOk(y) && Carried(y.hub, h') && k in y.conns && ConnOk(y, k)
    requires forall x :: x in h'.clients ==> !h'.clients[x].evicting
    ensures y.conns[k].Asking? ==> k !in h'.kicked
    ensures y.conns[k].Live? || y.conns[k].Leaving? ==>
              y.conns[k].id in h'.clients ==> y.conns[k].gen <= h'.clients[y.conns[k].id].gen
  {
    forall x | x in y.hub.clients ensures y.hub.clients[x].conn in y.conns && !y.conns[y.hub.clients[x].conn].Asking? {
      assert SlotOwned(y, x);
    }
    if y.conns[k].Live? || y.conns[k].Leaving? {
      assert SlotCarried(y.hub, h', y.conns[k].id);
    }
  }

  /** A surviving slot's connection is not the one of a slot that was shed. */
  lemma ShedIsAnother(y: System, h': HubState, x: Id)
    requires OwnersOk(y) && Carried(y.hub, h') && x in h'.clients && x in y.hub.clients && SlotOwned(y, x)
    requires forall z :: z in h'.clients ==> !h'.clients[z].evicting
    requires !y.hub.clients[x].held
    ensures y.hub.clients[x].conn !in h'.kicked
  {
    var k := y.hub.clients[x].conn;
    forall z | z in y.hub.clients && y.hub.clients[z].conn == k ensures z == x {
      assert SlotOwned(y, z);
    }
  }

  /** A join seats a new id on a channel nobody has. */
  lemma JoinOwners(y: System, k: ConnId, isCreate: bool, token: Token)
    requires OwnersOk(y) && Mid(y.hub) && 1 <= y.hub.nextId && y.hub.nextId + 1 < ID_SPACE
    requires k in y.conns && y.conns[k].Asking?
    ensures var b := Registered(y.hub, isCreate, k, token);
      OwnersOk(y.(hub := b, armed := Timers(y.armed, y.hub, b), conns := y.conns[k := Live(y.hub.nextId, 1, y.hub.nextChan)]))
  {
    var h, id := y.hub, y.hub.nextId;
    var b := Registered(h, isCreate, k, token);
    var y' := y.(hub := b, armed := Timers(y.armed, h, b), conns := y.conns[k := Live(id, 1, h.nextChan)]);
    assert id !in h.clients && ConnOk(y, k);
    ConnsBound(y);
    forall x | x in b.clients ensures SlotOwned(y', x) {
      if x != id {
        assert SlotOwned(y, x);
        assert StillHeld(b, (x, b.clients[x].gen)) <==> StillHeld(h, (x, b.clients[x].gen));
      }
    }
    forall j | j in y'.conns ensures ConnOk(y', j) {
      if j != k { assert ConnOk(y, j); }
    }
    forall p | p in y.fired ensures TimerOk(y', p) { assert TimerOk(y, p); }
    forall p | p in y'.armed ensures StillHeld(b, p) && p !in y.fired {
      assert p.0 != id;
    }
  }

  lemma ConnsBound(y: System)
    requires OwnersOk(y)
    ensures forall j :: j in y.conns && (y.conns[j].Live? || y.conns[j].Leaving?) ==> y.conns[j].id < y.hub.nextId
    ensures forall j :: j in y.conns && ChanOf(y.conns[j]).Some? ==> ChanOf(y.conns[j]).value < y.hub.nextChan
    ensures forall x :: x in y.hub.clients ==> y.hub.clients[x].chan < y.hub.nextChan
  {
    forall x | x in y.hub.clients ensures y.hub.clients[x].chan < y.hub.nextChan { assert SlotOwned(y, x); }
    forall j | j in y.conns
      ensures y.conns[j].Live? || y.conns[j].Leaving? ==> y.conns[j].id < y.hub.nextId
      ensures ChanOf(y.conns[j]).Some? ==> ChanOf(y.conns[j]).value < y.hub.nextChan
    {
      assert ConnOk(y, j);
    }
  }

  /** A leaving connection that no longer owns its slot just goes. */
  lemma StaleOwners(y: System, k: ConnId)
    requires OwnersOk(y) && k in y.conns && y.conns[k].Leaving?
    requires !LeaveMatches(y.hub, y.conns[k].id, y.conns[k].gen)
    ensures OwnersOk(y.(conns := y.conns[k := Gone(Some(y.conns[k].chan))]))
  {
    var y' := y.(conns := y.conns[k := Gone(Some(y.conns[k].chan))]);
    assert ConnOk(y, k);
    forall x | x in y.hub.clients ensures SlotOwned(y', x) { assert SlotOwned(y, x); }
    forall j | j in y'.conns ensures ConnOk(y', j) { if j != k { assert ConnOk(y, j); } }
    forall p | p in y.fired ensures TimerOk(y', p) { assert TimerOk(y, p); }
  }

  /** The owner's slot passes to a new timer. */
  lemma HoldOwners(y: System, k: ConnId)
    requires OwnersOk(y) && k in y.conns && y.conns[k].Leaving?
    requires LeaveMatches(y.hub, y.conns[k].id, y.conns[k].gen)
    ensures var b := HeldSlot(y.hub, y.conns[k].id);
      OwnersOk(y.(hub := b, armed := Timers(y.armed, y.hub, b), conns := y.conns[k := Gone(Some(y.conns[k].chan))]))
  {
    var h, id := y.hub, y.conns[k].id;
    var b := HeldSlot(h, id);
    var y' := y.(hub := b, armed := Timers(y.armed, h, b), conns := y.conns[k := Gone(Some(y.conns[k].chan))]);
    assert ConnOk(y, k) && SlotOwned(y, id);
    ConnsBound(y);
    forall p | p in y.fired ensures TimerOk(y', p) { assert TimerOk(y, p); }
    forall j | j in y'.conns ensures ConnOk(y', j) { assert ConnOk(y, j); }
    HoldTimers(y, id);
    forall x | x in b.clients ensures SlotOwned(y', x) {
      HoldSlotOwned(y, k, y', x);
    }
  }

  lemma HoldSlotOwned(y: System, k: ConnId, y': System, x: Id)
    requires OwnersOk(y) && k in y.conns && y.conns[k].Leaving?
    requires LeaveMatches(y.hub, y.conns[k].id, y.conns[k].gen)
    requires var b := HeldSlot(y.hub, y.conns[k].id);
      y' == y.(hub := b, armed := Timers(y.armed, y.hub, b), conns := y.conns[k := Gone(Some(y.conns[k].chan))])
    requires x in y'.hub.clients
    ensures SlotOwned(y', x)
  {
    var id := y.conns[k].id;
    assert ConnOk(y, k) && SlotOwned(y, id) && SlotOwned(y, x);
    ConnsBound(y);
    HoldTimers(y, id);
    if x == id {
      var gen := y'.hub.clients[id].gen;
      assert !TimerOk(y, (id, gen));
      forall j | j in y'.conns ensures !Owes(y'.conns[j], x, gen) {
        assert ConnOk(y, j);
      }
    }
  }

  lemma InTimers(armed: set<(Id, nat)>, h: HubState, h': HubState, p: (Id, nat))
    ensures p in Timers(armed, h, h') <==> StillHeld(h', p) && (p in armed || !StillHeld(h, p))
  {
    if StillHeld(h', p) { assert p == (p.0, h'.clients[p.0].gen); }
  }

  lemma HoldTimers(y: System, id: Id)
    requires OwnersOk(y) && id in y.hub.clients && !y.hub.clients[id].held
    ensures var b := HeldSlot(y.hub, id);
      && Timers(y.armed, y.hub, b) == y.armed + {(id, y.hub.clients[id].gen + 1)}
      && (forall p :: p in Timers(y.armed, y.hub, b) ==> StillHeld(b, p) && p !in y.fired)
  {
    var h, q := y.hub, (id, y.hub.clients[id].gen + 1);
    var b := HeldSlot(h, id);
    forall p ensures p in Timers(y.armed, h, b) <==> p in y.armed || p == q {
      InTimers(y.armed, h, b, p);
      assert p in y.armed ==> StillHeld(h, p) && StillHeld(b, p);
      assert p.0 != id ==> (StillHeld(h, p) <==> StillHeld(b, p));
    }
    assert !TimerOk(y, q);
  }

  /** The owner, or the timer, gives up the slot. */
  lemma ClearOwners(y: System, id: Id)
    requires OwnersOk(y) && id in y.hub.clients
    ensures var b := Without(y.hub, id);
      OwnersOk(y.(hub := b, armed := Timers(y.armed, y.hub, b)))
  {
    var b := Without(y.hub, id);
    WithoutCarries(y.hub, id);
    TimersCarried(y.armed, y.hub, y.hub, b);
    assert Timers(y.armed, y.hub, y.hub) == y.armed;
    ClearedSlots(y, id);
  }

  lemma ClearedSlots(y: System, id: Id)
    requires OwnersOk(y) && id in y.hub.clients
    requires forall p :: p in Timers(y.armed, y.hub, Without(y.hub, id)) <==> p in y.armed && StillHeld(Without(y.hub, id), p)
    ensures OwnersOk(y.(hub := Without(y.hub, id), armed := Timers(y.armed, y.hub, Without(y.hub, id))))
  {
    var b := Without(y.hub, id);
    var y' := y.(hub := b, armed := Timers(y.armed, y.hub, b));
    assert SlotOwned(y, id);
    forall x | x in b.clients ensures SlotOwned(y', x) {
      assert SlotOwned(y, x);
      assert StillHeld(b, (x, b.clients[x].gen)) <==> b.clients[x].held;
    }
    forall k | k in y.conns ensures ConnOk(y', k) { assert ConnOk(y, k); }
    forall p | p in y.fired ensures TimerOk(y', p) { assert TimerOk(y, p); }
  }

  function AfterResume(y: System, k: ConnId, id: Id): System
    requires id in y.hub.clients && y.hub.clients[id].taken <= |y.hub.clients[id].stream|
  {
    var b := ResumedSlot(y.hub, id, k);
    y.(hub := b, armed := Timers(y.armed, y.hub, b),
       conns := y.conns[k := Live(id, b.clients[id].gen, b.clients[id].chan)])
  }

  ghost predicate CanResume(y: System, k: ConnId, id: Id) {
    && OwnersOk(y) && k in y.conns && y.conns[k].Asking?
    && id in y.hub.clients && y.hub.clients[id].taken <= |y.hub.clients[id].stream| && id < y.hub.nextId
  }

  lemma ResumedSelf(y: System, k: ConnId, id: Id)
    requires CanResume(y, k, id)
    ensures SlotOwned(AfterResume(y, k, id), id)
  {
    var y' := AfterResume(y, k, id);
    assert ConnOk(y, k) && SlotOwned(y, id);
    forall j | j in y'.conns && Owes(y'.conns[j], id, y'.hub.clients[id].gen) ensures j == k {
      assert ConnOk(y, j);
    }
  }

  lemma ResumedOther(y: System, k: ConnId, id: Id, x: Id)
    requires CanResume(y, k, id) && x in y.hub.clients && x != id
    ensures SlotOwned(AfterResume(y, k, id), x)
  {
    var y' := AfterResume(y, k, id);
    assert SlotOwned(y, x) && SlotOwned(y, id);
    ResumeTimers(y, k, id);
    assert (x, y.hub.clients[x].gen) in y'.armed <==> (x, y.hub.clients[x].gen) in y.armed;
    assert y'.hub.clients[id].chan != y.hub.clients[x].chan;
  }

  lemma ResumedReaders(y: System, k: ConnId, id: Id)
    requires CanResume(y, k, id)
    ensures OneReader(AfterResume(y, k, id).conns) && OneChannel(AfterResume(y, k, id).hub)
  {
    ConnsBound(y);
    assert SlotOwned(y, id);
    var c := y.hub.clients[id];
    forall j | j in y.conns && j != k ensures ChanOf(y.conns[j]) != Some(AfterResume(y, k, id).hub.clients[id].chan) {
    }
  }

  /** The asking connection takes the slot over from its timer or from a stale connection. */
  lemma ResumeOwners(y: System, k: ConnId, id: Id)
    requires CanResume(y, k, id)
    ensures OwnersOk(AfterResume(y, k, id))
  {
    var y' := AfterResume(y, k, id);
    assert ConnOk(y, k) && SlotOwned(y, id);
    forall p | p in y.fired ensures TimerOk(y', p) { assert TimerOk(y, p); }
    forall j | j in y'.conns ensures ConnOk(y', j) { if j != k { assert ConnOk(y, j); } }
    forall x | x in y'.hub.clients ensures SlotOwned(y', x) {
      if x == id { ResumedSelf(y, k, id); } else { ResumedOther(y, k, id, x); }
    }
    ResumeTimers(y, k, id);
    ResumedReaders(y, k, id);
  }

  lemma ResumeTimers(y: System, k: ConnId, id: Id)
    requires OwnersOk(y) && id in y.hub.clients && y.hub.clients[id].taken <= |y.hub.clients[id].stream|
    ensures var b := ResumedSlot(y.hub, id, k);
      forall p :: p in Timers(y.armed, y.hub, b) <==> p in y.armed && p.0 != id
  {
    var h := y.hub;
    var b := ResumedSlot(h, id, k);
    forall p ensures p in Timers(y.armed, h, b) <==> p in y.armed && p.0 != id {
      assert p.0 != id ==> (StillHeld(h, p) <==> StillHeld(b, p));
      assert p in y.armed ==> StillHeld(h, p);
    }
  }

  lemma ClaimOwners(y: System, h': HubState)
    requires OwnersOk(y) && h' == y.hub.(host := h'.host)
    ensures OwnersOk(y.(hub := h', armed := Timers(y.armed, y.hub, h')))
  {
    var y' := y.(hub := h', armed := Timers(y.armed, y.hub, h'));
    forall p ensures p in y'.armed <==> p in y.armed { assert p in y.armed ==> StillHeld(y.hub, p); }
    assert y'.armed == y.armed;
    forall x | x in h'.clients ensures SlotOwned(y', x) { assert SlotOwned(y, x); }
    forall k | k in y.conns ensures ConnOk(y', k) { assert ConnOk(y, k); }
    forall p | p in y.fired ensures TimerOk(y', p) { assert TimerOk(y, p); }
  }

  // ----- One action, then runs -----

  /** The handler's own change to slots, connections and timers keeps every owner. */
  lemma BaseOwners(y: System, k: ConnId, reply: Reply, t: Drops, y': System)
    requires Boundary(y.hub) && OwnersOk(y) && !y.hub.over && !y'.hub.over
    requires SysNext(y, Answer(k, reply, t), y')
    ensures var b := Base(y.hub, y.conns[k].cmd);
      OwnersOk(y.(hub := b, armed := Timers(y.armed, y.hub, b), conns := y'.conns))
  {
    var cmd := y.conns[k].cmd;
    assert ConnOk(y, k);
    match cmd {
      case Join(isCreate, conn, token) =>
        if |y.hub.clients| < y.hub.max {
          JoinOwners(y, k, isCreate, token);
        } else {
          RefusedOwners(y, k);
        }
      case Resume(id, token, conn) =>
        if ResumeMatches(y.hub, id, token) {
          assert SlotOk(y.hub, id);
          ResumeOwners(y, k, id);
        } else {
          RefusedOwners(y, k);
        }
      case _ =>
    }
  }

  lemma RefusedOwners(y: System, k: ConnId)
    requires OwnersOk(y) && k in y.conns && y.conns[k].Asking?
    ensures OwnersOk(y.(armed := Timers(y.armed, y.hub, y.hub), conns := y.conns[k := Gone(None)]))
  {
    var y' := y.(armed := Timers(y.armed, y.hub, y.hub), conns := y.conns[k := Gone(None)]);
    assert ConnOk(y, k);
    assert y'.armed == y.armed;
    forall x | x in y.hub.clients ensures SlotOwned(y', x) { assert SlotOwned(y, x); }
    forall j | j in y'.conns ensures ConnOk(y', j) { if j != k { assert ConnOk(y, j); } }
    forall p | p in y.fired ensures TimerOk(y', p) { assert TimerOk(y, p); }
  }

  /** The rest of the command, drain included, follows from any such base. */
  lemma TakenOwners(y: System, cmd: Command, reply: Reply, t: Drops, y': System, b: System)
    requires Boundary(y.hub) && !y.hub.over && !y'.hub.over && HubTakes(y, cmd, reply, t, y')
    requires b == System(Base(y.hub, cmd), y'.conns, Timers(y.armed, y.hub, Base(y.hub, cmd)), y'.fired) && OwnersOk(b)
    ensures Boundary(y'.hub) && OwnersOk(y')
  {
    CommandKeeps(y.hub, cmd, reply, t, y'.hub, true);
    CommandCarries(y.hub, cmd, reply, t, y'.hub, true);
    TimersCarried(y.armed, y.hub, Base(y.hub, cmd), y'.hub);
    CarriedOwners(b, y'.hub, y'.armed);
    assert b.(hub := y'.hub, armed := y'.armed) == y';
  }

  lemma LeaveOwners(y: System, k: ConnId, t: Drops, y': System)
    requires Boundary(y.hub) && OwnersOk(y) && !y.hub.over && !y'.hub.over && SysNext(y, TakeLeave(k, t), y')
    ensures Boundary(y'.hub) && OwnersOk(y')
  {
    var c := y.conns[k];
    var cmd := Leave(c.id, c.gen, c.unexpected);
    var h, b := y.hub, Base(y.hub, cmd);
    if LeaveMatches(h, c.id, c.gen) {
      if Holds(h, c.unexpected) {
        HoldOwners(y, k);
      } else {
        ClearOwners(y, c.id);
        StaleOwners(y.(hub := b, armed := Timers(y.armed, h, b)), k);
      }
    } else {
      StaleOwners(y, k);
      assert Timers(y.armed, h, h) == y.armed;
    }
    TakenOwners(y, cmd, Silent, t, y', System(b, y'.conns, Timers(y.armed, h, b), y'.fired));
  }

  lemma ExpiryOwners(y: System, p: (Id, nat), t: Drops, y': System)
    requires Boundary(y.hub) && OwnersOk(y) && !y.hub.over && !y'.hub.over && SysNext(y, TakeExpiry(p, t), y')
    ensures Boundary(y'.hub) && OwnersOk(y')
  {
    var cmd := GraceExpired(p.0, p.1);
    var h, b := y.hub, Base(y.hub, cmd);
    if ExpiryMatches(h, p.0, p.1) {
      ClearOwners(y, p.0);
    } else {
      assert Timers(y.armed, h, h) == y.armed;
    }
    SpentTimer(y.(hub := b, armed := Timers(y.armed, h, b)), p);
    TakenOwners(y, cmd, Silent, t, y', System(b, y'.conns, Timers(y.armed, h, b), y'.fired));
  }

  /** Discarding a fired timer that owns nothing. */
  lemma SpentTimer(y: System, p: (Id, nat))
    requires OwnersOk(y) && !StillHeld(y.hub, p)
    ensures OwnersOk(y.(fired := y.fired - {p}))
  {
    var y' := y.(fired := y.fired - {p});
    forall x | x in y.hub.clients ensures SlotOwned(y', x) { assert SlotOwned(y, x); }
    forall k | k in y.conns ensures ConnOk(y', k) { assert ConnOk(y, k); }
    forall q | q in y'.fired ensures TimerOk(y', q) { assert TimerOk(y, q); }
  }

  lemma ServeOwners(y: System, cmd: Command, t: Drops, y': System)
    requires Boundary(y.hub) && OwnersOk(y) && !y.hub.over && !y'.hub.over && SysNext(y, Serve(cmd, t), y')
    ensures Boundary(y'.hub) && OwnersOk(y')
  {
    var b := Base(y.hub, cmd);
    ClaimOwners(y, b);
    TakenOwners(y, cmd, Silent, t, y', System(b, y'.conns, Timers(y.armed, y.hub, b), y'.fired));
  }

  lemma DialOwners(y: System, k: ConnId, cmd: Command)
    requires OwnersOk(y) && k !in y.conns && AsksFor(cmd, k)
    ensures OwnersOk(y.(conns := y.conns[k := Asking(cmd)]))
  {
    var y' := y.(conns := y.conns[k := Asking(cmd)]);
    forall x | x in y.hub.clients ensures SlotOwned(y', x) { assert SlotOwned(y, x); }
    forall j | j in y'.conns ensures ConnOk(y', j) { if j != k { assert ConnOk(y, j); } }
    forall q | q in y.fired ensures TimerOk(y', q) { assert TimerOk(y, q); }
  }

  lemma EndOwners(y: System, k: ConnId, unexpected: bool)
    requires OwnersOk(y) && k in y.conns && y.conns[k].Live?
    ensures var c := y.conns[k];
      OwnersOk(y.(conns := y.conns[k := Leaving(c.id, c.gen, c.chan, unexpected)]))
  {
    var c := y.conns[k];
    var y' := y.(conns := y.conns[k := Leaving(c.id, c.gen, c.chan, unexpected)]);
    assert ConnOk(y, k);
    forall x | x in y.hub.clients ensures SlotOwned(y', x) { assert SlotOwned(y, x); }
    forall j | j in y'.conns ensures ConnOk(y', j) { assert ConnOk(y, j); }
    forall q | q in y.fired ensures TimerOk(y', q) { assert TimerOk(y, q); }
  }

  lemma FireOwners(y: System, p: (Id, nat))
    requires OwnersOk(y) && Mid(y.hub) && p in y.armed
    ensures OwnersOk(y.(armed := y.armed - {p}, fired := y.fired + {p}))
  {
    var y' := y.(armed := y.armed - {p}, fired := y.fired + {p});
    assert StillHeld(y.hub, p);
    forall x | x in y.hub.clients ensures SlotOwned(y', x) { assert SlotOwned(y, x); }
    forall j | j in y.conns ensures ConnOk(y', j) { assert ConnOk(y, j); }
    forall q | q in y'.fired ensures TimerOk(y', q) { if q != p { assert TimerOk(y, q); } }
  }

  lemma UseOwners(y: System, h': HubState)
    requires OwnersOk(y) && DriftStep(y.hub, h')
    ensures OwnersOk(y.(hub := h'))
  {
    var y' := y.(hub := h');
    forall x | x in y.hub.clients ensures SameSlot(y.hub.clients[x], h'.clients[x]) {
      assert Drift(y.hub.clients[x], h'.clients[x], true);
    }
    forall x | x in h'.clients ensures SlotOwned(y', x) { assert SlotOwned(y, x); }
    forall j | j in y.conns ensures ConnOk(y', j) { assert ConnOk(y, j); }
    forall q | q in y.fired ensures TimerOk(y', q) { assert TimerOk(y, q); }
  }

  lemma StepOwners(y: System, a: Action, y': System)
    requires SysInv(y) && SysNext(y, a, y') && !y'.hub.over
    ensures SysInv(y')
  {
    match a {
      case Answer(k, reply, t) =>
        BaseOwners(y, k, reply, t, y');
        var cmd := y.conns[k].cmd;
        TakenOwners(y, cmd, reply, t, y', System(Base(y.hub, cmd), y'.conns, Timers(y.armed, y.hub, Base(y.hub, cmd)), y'.fired));
      case TakeLeave(k, t) => LeaveOwners(y, k, t, y');
      case TakeExpiry(p, t) => ExpiryOwners(y, p, t, y');
      case Serve(cmd, t) => ServeOwners(y, cmd, t, y');
      case Dial(k, cmd) => DialOwners(y, k, cmd);
      case End(k, unexpected) => EndOwners(y, k, unexpected);
      case Fire(p) => FireOwners(y, p);
      case Use => UseOwners(y, y'.hub); DriftKeeps(y.hub, y'.hub);
    }
  }

  lemma {:induction false} SysRunKeeps(ys: seq<System>, acts: seq<Action>, i: nat)
    requires SysRun(ys, acts) && i < |ys|
    ensures SysInv(ys[i])
  {
    if i > 0 {
      SysRunKeeps(ys, acts, i - 1);
      assert SysNext(ys[i - 1], acts[i - 1], ys[i]);
      if !ys[i].hub.over {
        OverStays(ys[i - 1], acts[i - 1], ys[i]);
        StepOwners(ys[i - 1], acts[i - 1], ys[i]);
      }
    }
  }

  lemma OverStays(y: System, a: Action, y': System)
    requires SysNext(y, a, y')
    ensures y.hub.over ==> y'.hub.over
  {
  }

  // ----- Main results -----

  /** In every run each slot has exactly one owner of its current generation: while live, the
      connection whose kick function it stores, which still owes its leave, reads the slot's
      channel and has not been kicked; while held, one timer, pending or fired but not both. */
  lemma SlotsAreOwned(ys: seq<System>, acts: seq<Action>, i: nat, x: Id)
    requires SysRun(ys, acts) && i < |ys| && !ys[i].hub.over && x in ys[i].hub.clients
    ensures var y, c := ys[i], ys[i].hub.clients[x];
      && (!c.held ==>
            && c.conn in y.conns && Owes(y.conns[c.conn], x, c.gen) && ChanOf(y.conns[c.conn]) == Some(c.chan)
            && c.conn !in y.hub.kicked
            && (forall k :: k in y.conns && Owes(y.conns[k], x, c.gen) ==> k == c.conn)
            && (x, c.gen) !in y.armed && (x, c.gen) !in y.fired)
      && (c.held ==>
            && ((x, c.gen) in y.armed <==> (x, c.gen) !in y.fired)
            && (forall k :: k in y.conns ==> !Owes(y.conns[k], x, c.gen)))
  {
    SysRunKeeps(ys, acts, i);
    var y, c := ys[i], ys[i].hub.clients[x];
    assert SlotOwned(y, x);
    assert (x, c.gen) in y.fired ==> TimerOk(y, (x, c.gen));
  }

  /** No queue is ever handed to two connections, and nobody reads the queue of a held slot. */
  lemma QueuesHaveOneReader(ys: seq<System>, acts: seq<Action>, i: nat, j: ConnId, k: ConnId)
    requires SysRun(ys, acts) && i < |ys| && !ys[i].hub.over
    requires j in ys[i].conns && k in ys[i].conns && ChanOf(ys[i].conns[j]).Some?
    ensures ChanOf(ys[i].conns[j]) == ChanOf(ys[i].conns[k]) ==> j == k
    ensures forall x :: x in ys[i].hub.clients && ys[i].hub.clients[x].held ==>
              ChanOf(ys[i].conns[j]) != Some(ys[i].hub.clients[x].chan)
  {
    SysRunKeeps(ys, acts, i);
    forall x | x in ys[i].hub.clients && ys[i].hub.clients[x].held
      ensures ChanOf(ys[i].conns[j]) != Some(ys[i].hub.clients[x].chan)
    {
      assert SlotOwned(ys[i], x);
    }
  }

  /** A leave or expiry whose generation is not the slot's current one changes nothing. */
  lemma StaleCommandsIgnored(s: HubState, cmd: Command, t: Drops, s': HubState, concurrent: bool)
    requires Boundary(s) && CommandStep(s, cmd, Silent, t, s', concurrent)
    requires cmd.Leave? || cmd.GraceExpired?
    requires cmd.id in s.clients ==> s.clients[cmd.id].gen != cmd.gen
    ensures s' == s && t == Start
  {
    var m :| HandlerStep(s, cmd, Silent, m, concurrent) && DrainUnlessOver(m, t, s', concurrent);
    NothingToDrain(m, t, s', concurrent);
  }
}
