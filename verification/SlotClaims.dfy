/** Which connections come to own a slot, and what becomes of those that lose one. */
module SlotClaims {
  import opened Wire
  import opened HubSpec
  import opened HubViews
  import opened HubLedger
  import opened Slots

  // ----- The ledger of a system run -----

  /** The command the hub handles, if it handles one. */
  function Shown(y: System, a: Action): Label {
    match a
    case Answer(k, reply, t) => if k in y.conns && y.conns[k].Asking? then Did(y.conns[k].cmd, reply, t) else Quiet
    case TakeLeave(k, t) =>
      if k in y.conns && y.conns[k].Leaving? then
        Did(Leave(y.conns[k].id, y.conns[k].gen, y.conns[k].unexpected), Silent, t)
      else Quiet
    case TakeExpiry(p, t) => Did(GraceExpired(p.0, p.1), Silent, t)
    case Serve(cmd, t) => Did(cmd, Silent, t)
    case _ => Quiet
  }

  function Labels(ys: seq<System>, acts: seq<Action>): seq<Label>
    requires |ys| == |acts| + 1
  {
    seq(|acts|, i requires 0 <= i < |acts| => Shown(ys[i], acts[i]))
  }

  lemma SysBook(ys: seq<System>, acts: seq<Action>, i: nat)
    requires SysRun(ys, acts) && i < |acts|
    ensures Kept(ys[i + 1].hub) == Booked(Kept(ys[i].hub), Labels(ys, acts)[i])
    ensures var l := Labels(ys, acts)[i]; l.Did? ==> Answers(l.reply, Told(Kept(ys[i].hub), l.cmd))
  {
    assert SysNext(ys[i], acts[i], ys[i + 1]);
    SysRunKeeps(ys, acts, i);
    match Shown(ys[i], acts[i])
    case Quiet => if acts[i].Use? { QuietBook(ys[i].hub, ys[i + 1].hub); }
    case Did(cmd, reply, t) => CommandBook(ys[i].hub, cmd, reply, t, ys[i + 1].hub, true);
  }

  lemma TokenStep(ys: seq<System>, acts: seq<Action>, i: nat, x: Id)
    requires SysRun(ys, acts) && i < |acts| && x in ys[i + 1].hub.clients
    ensures
      var l, token := Labels(ys, acts)[i], ys[i + 1].hub.clients[x].token;
      if SeatsNow(l, x) && l.cmd.Join? then token == l.cmd.token
      else x in ys[i].hub.clients && token == ys[i].hub.clients[x].token
  {
    SysBook(ys, acts, i);
    assert x in Kept(ys[i + 1].hub).seats;
    TokenKept(Kept(ys[i].hub), Labels(ys, acts)[i], x);
  }

  lemma {:induction false} SysTokenIssued(ys: seq<System>, acts: seq<Action>, i: nat, x: Id)
    requires SysRun(ys, acts) && i < |ys| && x in ys[i].hub.clients
    ensures Issued(Labels(ys, acts), i, x) == Some(ys[i].hub.clients[x].token)
  {
    if i > 0 {
      TokenStep(ys, acts, i - 1, x);
      if x in ys[i - 1].hub.clients { SysTokenIssued(ys, acts, i - 1, x); }
    }
  }

  // ----- Who may own a slot -----

  ghost predicate AsksForItself(y: System) {
    forall k :: k in y.conns && y.conns[k].Asking? ==> AsksFor(y.conns[k].cmd, k)
  }

  lemma {:induction false} AskersAsk(ys: seq<System>, acts: seq<Action>, i: nat)
    requires SysRun(ys, acts) && i < |ys|
    ensures AsksForItself(ys[i])
  {
    if i > 0 {
      AskersAsk(ys, acts, i - 1);
      assert SysNext(ys[i - 1], acts[i - 1], ys[i]);
    }
  }

  /** At step `j` connection `k` is answered with the slot `x`: its join was given that id, or its resume
      carried the token of the join that was. */
  ghost predicate Earns(ys: seq<System>, acts: seq<Action>, j: nat, k: ConnId, x: Id) {
    && j < |acts| && |ys| == |acts| + 1 && acts[j].Answer? && acts[j].k == k
    && acts[j].reply.Seated? && acts[j].reply.id == x && k in ys[j].conns && ys[j].conns[k].Asking?
    && var cmd := ys[j].conns[k].cmd;
       cmd.Join? || (cmd.Resume? && cmd.id == x && Issued(Labels(ys, acts), j, x) == Some(cmd.token))
  }

  ghost predicate Earned(ys: seq<System>, acts: seq<Action>, i: nat, k: ConnId, x: Id) {
    exists j: nat :: j < i && Earns(ys, acts, j, k, x)
  }

  /** A slot changes hands only to the connection that is being answered. */
  lemma NewOwner(ys: seq<System>, acts: seq<Action>, i: nat, x: Id)
    requires SysRun(ys, acts) && i < |acts| && x in ys[i + 1].hub.clients
    requires x in ys[i].hub.clients ==> ys[i].hub.clients[x].conn != ys[i + 1].hub.clients[x].conn
    ensures Earns(ys, acts, i, ys[i + 1].hub.clients[x].conn, x)
  {
    var b, b', l := Kept(ys[i].hub), Kept(ys[i + 1].hub), Labels(ys, acts)[i];
    assert SysNext(ys[i], acts[i], ys[i + 1]);
    AskersAsk(ys, acts, i);
    SysBook(ys, acts, i);
    assert x in b'.seats && b'.seats[x].conn == ys[i + 1].hub.clients[x].conn;
    assert x in ys[i].hub.clients ==> x in b.seats && b.seats[x].conn == ys[i].hub.clients[x].conn;
    assert l.Did?;
    assert b'.seats[x] == Entry(b, l.cmd).seats[x];
    assert l.cmd.Join? || l.cmd.Resume?;
    if l.cmd.Resume? { SysTokenIssued(ys, acts, i, x); }
  }

  lemma EarnedLater(ys: seq<System>, acts: seq<Action>, i: nat, k: ConnId, x: Id)
    requires Earned(ys, acts, i, k, x)
    ensures Earned(ys, acts, i + 1, k, x)
  {
    var j: nat :| j < i && Earns(ys, acts, j, k, x);
    assert j < i + 1;
  }

  /** In every run the connection a slot stores has earned it. */
  lemma {:induction false} OwnersEarned(ys: seq<System>, acts: seq<Action>, i: nat, x: Id)
    requires SysRun(ys, acts) && i < |ys| && x in ys[i].hub.clients
    ensures Earned(ys, acts, i, ys[i].hub.clients[x].conn, x)
  {
    if i > 0 {
      var k := ys[i].hub.clients[x].conn;
      if x in ys[i - 1].hub.clients && ys[i - 1].hub.clients[x].conn == k {
        OwnersEarned(ys, acts, i - 1, x);
        EarnedLater(ys, acts, i - 1, k, x);
      } else {
        NewOwner(ys, acts, i - 1, x);
      }
    }
  }

  // ----- Who is told to stop -----

  predicate Holder(h: HubState, k: ConnId, x: Id, gen: nat) {
    x in h.clients && h.clients[x].conn == k && h.clients[x].gen == gen && !h.clients[x].held
  }

  /** Whoever held a slot holds it still, or has been kicked. */
  ghost predicate KicksLosers(h: HubState, h': HubState) {
    && h.kicked <= h'.kicked
    && forall k, x, gen :: Holder(h, k, x, gen) ==> Holder(h', k, x, gen) || k in h'.kicked
  }

  lemma KicksMore(a: HubState, b: HubState, c: HubState)
    requires KicksLosers(a, b) && KicksLosers(b, c)
    ensures KicksLosers(a, c)
  {
  }

  lemma BroadcastKicks(s: HubState, f: Frame, except: Id, s': HubState, concurrent: bool)
    requires BroadcastStep(s, f, except, s', concurrent)
    ensures KicksLosers(s, s')
  {
    BroadcastCarries(s, f, except, s', concurrent);
    CarriedKicks(s, s');
  }

  lemma CarriedKicks(s: HubState, s': HubState)
    requires Carried(s, s') && s'.clients.Keys == s.clients.Keys && s.kicked <= s'.kicked
    ensures KicksLosers(s, s')
  {
    forall k, x, gen | Holder(s, k, x, gen) ensures Holder(s', k, x, gen) { assert SlotCarried(s, s', x); }
  }

  lemma SendKicks(s: HubState, to: Id, f: Frame, s': HubState, concurrent: bool)
    requires SendStep(s, to, f, s', concurrent)
    ensures KicksLosers(s, s')
  {
    SendCarries(s, to, f, s', concurrent);
    CarriedKicks(s, s');
  }

  lemma RemoveKicks(s: HubState, id: Id, s': HubState, concurrent: bool)
    requires RemoveStep(s, id, s', concurrent)
    ensures KicksLosers(s, s')
  {
    if id in s.clients {
      var w := Without(s, id);
      assert KicksLosers(s, w);
      if |s.clients - {id}| != 0 {
        BroadcastKicks(w, ParticipantLeft(id), 0, s', concurrent);
        KicksMore(s, w, s');
      }
    }
  }

  lemma {:induction false} DrainKicks(s: HubState, t: Drops, s': HubState, concurrent: bool)
    requires DrainTrace(s, t, s', concurrent)
    ensures KicksLosers(s, s')
  {
    if t.Drop? {
      DrainKicks(s, t.before, t.at, concurrent);
      var p := PopEvict(t.at);
      assert KicksLosers(t.at, p);
      RemoveKicks(p, t.id, s', concurrent);
      KicksMore(t.at, p, s');
      KicksMore(s, t.at, s');
    }
  }

  lemma ForwardKicks(s: HubState, from: Id, msg: Routed, s': HubState, concurrent: bool)
    requires ForwardStep(s, from, msg, s', concurrent)
    ensures KicksLosers(s, s')
  {
    match msg {
      case BadDirect => SendKicks(s, from, Error(ERR_BAD_FRAME), s', concurrent);
      case BadBroadcast => SendKicks(s, from, Error(ERR_BAD_FRAME), s', concurrent);
      case ToOne(to, p) =>
        if to in s.clients {
          SendKicks(s, to, Direct(from, to, p), s', concurrent);
        } else {
          SendKicks(s, from, Error(ERR_UNKNOWN_PEER), s', concurrent);
        }
      case ToAll(p) => BroadcastKicks(s, Broadcast(from, p), from, s', concurrent);
    }
  }

  lemma JoinKicks(s: HubState, isCreate: bool, conn: ConnId, token: Token, reply: Reply, m: HubState, concurrent: bool)
    requires JoinStep(s, isCreate, conn, token, reply, m, concurrent) && s.nextId !in s.clients
    ensures KicksLosers(s, m)
  {
    if |s.clients| < s.max {
      var r := Registered(s, isCreate, conn, token);
      assert KicksLosers(s, r);
      BroadcastKicks(r, ParticipantJoined(s.nextId), s.nextId, m, concurrent);
      KicksMore(s, r, m);
    }
  }

  lemma CloseKicks(s: HubState, reason: string, m: HubState, concurrent: bool)
    requires CloseStep(s, reason, m, concurrent)
    ensures KicksLosers(s, m) && OverKicked(m)
  {
    var b :| BroadcastStep(s, SessionClosed(reason), 0, b, concurrent) && m == Ended(b);
    BroadcastKicks(s, SessionClosed(reason), 0, b, concurrent);
    assert KicksLosers(b, m);
    KicksMore(s, b, m);
  }

  /** Once the session is over, whoever is still listed has been kicked. */
  ghost predicate OverKicked(h: HubState) {
    h.over ==> forall x :: x in h.clients ==> h.clients[x].conn in h.kicked
  }

  lemma RemoveOver(s: HubState, id: Id, s': HubState, concurrent: bool)
    requires RemoveStep(s, id, s', concurrent) && !s.over
    ensures OverKicked(s')
  {
    if id in s.clients && |s.clients - {id}| == 0 { assert (s.clients - {id}).Keys == {}; }
  }

  /** Every handler but a leave kicks whoever loses a slot by it. */
  lemma HandlerKicks(s: HubState, cmd: Command, reply: Reply, m: HubState, concurrent: bool)
    requires HandlerStep(s, cmd, reply, m, concurrent) && !s.over && !cmd.Leave? && s.nextId !in s.clients
    ensures KicksLosers(s, m) && OverKicked(m)
  {
    match cmd {
      case Join(isCreate, conn, token) => JoinKicks(s, isCreate, conn, token, reply, m, concurrent);
      case GraceExpired(id, gen) =>
        if ExpiryMatches(s, id, gen) {
          RemoveKicks(s, id, m, concurrent);
          RemoveOver(s, id, m, concurrent);
        }
      case Resume(_, _, _) =>
      case ClaimHost(_) =>
      case Forward(from, msg) =>
        ForwardKicks(s, from, msg, m, concurrent);
        ForwardBook(s, from, msg, m, concurrent);
        assert Kept(m).over == m.over;
      case Stats =>
      case Close(reason) => CloseKicks(s, reason, m, concurrent);
    }
  }

  /** A leave is the holder's own, and concerns nobody else. */
  ghost predicate KicksOthers(h: HubState, h': HubState, id: Id) {
    && h.kicked <= h'.kicked
    && forall k, x, gen :: x != id && Holder(h, k, x, gen) ==> Holder(h', k, x, gen) || k in h'.kicked
  }

  lemma LeaveKicks(s: HubState, id: Id, gen: nat, unexpected: bool, m: HubState, concurrent: bool)
    requires LeaveStep(s, id, gen, unexpected, m, concurrent) && !s.over
    ensures OverKicked(m) && if LeaveMatches(s, id, gen) then KicksOthers(s, m, id) else m == s
  {
    if LeaveMatches(s, id, gen) && !Holds(s, unexpected) {
      RemoveKicks(s, id, m, concurrent);
      RemoveOver(s, id, m, concurrent);
    }
  }

  lemma OthersMore(a: HubState, b: HubState, c: HubState, id: Id)
    requires KicksOthers(a, b, id) && KicksLosers(b, c)
    ensures KicksOthers(a, c, id)
  {
  }

  lemma DrainOver(m: HubState, t: Drops, s': HubState, concurrent: bool)
    requires DrainUnlessOver(m, t, s', concurrent) && OverKicked(m)
    ensures KicksLosers(m, s') && OverKicked(s')
  {
    if m.over {
      assert KicksLosers(m, m);
    } else {
      DrainKicks(m, t, s', concurrent);
      if t.Drop? { RemoveOver(PopEvict(t.at), t.id, s', concurrent); }
    }
  }

  /** A command: everybody, or everybody but the connection that leaves. */
  lemma CommandKicks(s: HubState, cmd: Command, reply: Reply, t: Drops, s': HubState, concurrent: bool)
    requires Boundary(s) && CommandStep(s, cmd, reply, t, s', concurrent)
    ensures OverKicked(s')
    ensures if cmd.Leave? && LeaveMatches(s, cmd.id, cmd.gen) then KicksOthers(s, s', cmd.id) else KicksLosers(s, s')
  {
    var m :| HandlerStep(s, cmd, reply, m, concurrent) && DrainUnlessOver(m, t, s', concurrent);
    if cmd.Leave? {
      LeaveKicks(s, cmd.id, cmd.gen, cmd.unexpected, m, concurrent);
      DrainOver(m, t, s', concurrent);
      if LeaveMatches(s, cmd.id, cmd.gen) { OthersMore(s, m, s', cmd.id); }
    } else {
      HandlerKicks(s, cmd, reply, m, concurrent);
      DrainOver(m, t, s', concurrent);
      KicksMore(s, m, s');
    }
  }

  // ----- Overflowing -----

  /** Whoever is to be evicted has been told to stop already. */
  ghost predicate MarkedKicked(h: HubState) {
    forall x :: x in h.clients && h.clients[x].evicting && !h.clients[x].held ==> h.clients[x].conn in h.kicked
  }

  lemma GrewMarks(s: HubState, s': HubState)
    requires MarkedKicked(s) && EvictGrew(s, s') && Carried(s, s')
    ensures MarkedKicked(s')
  {
    forall x | x in s'.clients && s'.clients[x].evicting && !s'.clients[x].held ensures s'.clients[x].conn in s'.kicked {
      assert SlotCarried(s, s', x);
      if !s.clients[x].evicting { assert NewlyEvicting(s, s', x); }
    }
  }

  lemma BroadcastMarks(s: HubState, f: Frame, except: Id, s': HubState, concurrent: bool)
    requires MarkedKicked(s) && BroadcastStep(s, f, except, s', concurrent)
    ensures MarkedKicked(s')
  {
    BroadcastCarries(s, f, except, s', concurrent);
    GrewMarks(s, s');
  }

  lemma SendMarks(s: HubState, to: Id, f: Frame, s': HubState, concurrent: bool)
    requires MarkedKicked(s) && SendStep(s, to, f, s', concurrent)
    ensures MarkedKicked(s')
  {
    if to in s.clients {
      SendCarries(s, to, f, s', concurrent);
      GrewMarks(s, s');
    }
  }

  lemma RemoveMarks(s: HubState, id: Id, s': HubState, concurrent: bool)
    requires MarkedKicked(s) && RemoveStep(s, id, s', concurrent)
    ensures MarkedKicked(s')
  {
    if id in s.clients && |s.clients - {id}| != 0 {
      assert MarkedKicked(Without(s, id));
      BroadcastMarks(Without(s, id), ParticipantLeft(id), 0, s', concurrent);
    }
  }

  lemma ForwardMarks(s: HubState, from: Id, msg: Routed, s': HubState, concurrent: bool)
    requires MarkedKicked(s) && ForwardStep(s, from, msg, s', concurrent)
    ensures MarkedKicked(s')
  {
    match msg {
      case BadDirect => SendMarks(s, from, Error(ERR_BAD_FRAME), s', concurrent);
      case BadBroadcast => SendMarks(s, from, Error(ERR_BAD_FRAME), s', concurrent);
      case ToOne(to, p) =>
        if to in s.clients {
          SendMarks(s, to, Direct(from, to, p), s', concurrent);
        } else {
          SendMarks(s, from, Error(ERR_UNKNOWN_PEER), s', concurrent);
        }
      case ToAll(p) => BroadcastMarks(s, Broadcast(from, p), from, s', concurrent);
    }
  }

  lemma JoinMarks(s: HubState, isCreate: bool, conn: ConnId, token: Token, reply: Reply, m: HubState, concurrent: bool)
    requires MarkedKicked(s) && JoinStep(s, isCreate, conn, token, reply, m, concurrent)
    ensures MarkedKicked(m)
  {
    if |s.clients| < s.max {
      var r := Registered(s, isCreate, conn, token);
      assert MarkedKicked(r);
      BroadcastMarks(r, ParticipantJoined(s.nextId), s.nextId, m, concurrent);
    }
  }

  lemma HandlerMarks(s: HubState, cmd: Command, reply: Reply, m: HubState, concurrent: bool)
    requires MarkedKicked(s) && HandlerStep(s, cmd, reply, m, concurrent) && !m.over
    requires forall x :: x in s.clients ==> !s.clients[x].evicting
    ensures MarkedKicked(m)
  {
    match cmd {
      case Join(isCreate, conn, token) =>
        JoinMarks(s, isCreate, conn, token, reply, m, concurrent);
      case Leave(id, gen, unexpected) =>
        if LeaveMatches(s, id, gen) && !Holds(s, unexpected) { RemoveMarks(s, id, m, concurrent); }
      case GraceExpired(id, gen) => if ExpiryMatches(s, id, gen) { RemoveMarks(s, id, m, concurrent); }
      case Forward(from, msg) => ForwardMarks(s, from, msg, m, concurrent);
      case Resume(_, _, _) =>
      case ClaimHost(_) =>
      case Stats =>
    }
  }

  /** At every moment of a command: a live connection that overflowed has been kicked at once, before its
      slot is torn down. */
  lemma {:induction false} OverflowedAreKicked(s: HubState, cmd: Command, reply: Reply, m: HubState, t: Drops, at: HubState, concurrent: bool)
    requires Boundary(s) && !s.over && HandlerStep(s, cmd, reply, m, concurrent) && !m.over && DrainTrace(m, t, at, concurrent)
    ensures MarkedKicked(at)
    decreases t
  {
    if t.Drop? {
      OverflowedAreKicked(s, cmd, reply, m, t.before, t.at, concurrent);
      RemoveMarks(PopEvict(t.at), t.id, at, concurrent);
    } else {
      HandlerMarks(s, cmd, reply, m, concurrent);
    }
  }

  /** Every connection that believes it is seated holds its slot, or has been told to stop. */
  ghost predicate NoStrays(y: System) {
    forall k {:trigger Rightful(y, k)} :: k in y.conns && y.conns[k].Live? ==> Rightful(y, k)
  }

  predicate Rightful(y: System, k: ConnId)
    requires k in y.conns && y.conns[k].Live?
  {
    Holder(y.hub, k, y.conns[k].id, y.conns[k].gen) || k in y.hub.kicked
  }

  lemma AnswerStrays(y: System, k: ConnId, reply: Reply, t: Drops, y': System)
    requires SysInv(y) && NoStrays(y) && SysNext(y, Answer(k, reply, t), y') && AsksForItself(y)
    ensures NoStrays(y') && OverKicked(y'.hub)
  {
    CommandKicks(y.hub, y.conns[k].cmd, reply, t, y'.hub, true);
    forall j | j in y'.conns && y'.conns[j].Live? ensures Rightful(y', j) {
      if j == k { AnsweredHolds(y, k, reply, t, y'); } else { assert Rightful(y, j); }
    }
  }

  lemma AnsweredHolds(y: System, k: ConnId, reply: Reply, t: Drops, y': System)
    requires SysInv(y) && SysNext(y, Answer(k, reply, t), y') && AsksForItself(y) && y'.conns[k].Live?
    ensures Rightful(y', k)
  {
    var h, h', cmd := y.hub, y'.hub, y.conns[k].cmd;
    var m :| HandlerStep(h, cmd, reply, m, true) && DrainUnlessOver(m, t, h', true);
    HandlerKicks(h, cmd, reply, m, true);
    DrainOver(m, t, h', true);
    AnsweredAtOnce(h, cmd, reply, m);
    assert Holder(m, k, reply.id, reply.gen);
  }

  lemma AnsweredAtOnce(h: HubState, cmd: Command, reply: Reply, m: HubState)
    requires HandlerStep(h, cmd, reply, m, true) && reply.Seated? && (cmd.Join? || cmd.Resume?)
    ensures Holder(m, cmd.conn, reply.id, reply.gen)
  {
    if cmd.Join? {
      assert Fanned(Registered(h, cmd.isCreate, cmd.conn, cmd.token), ParticipantJoined(h.nextId), h.nextId, m, h.nextId, true);
    }
  }

  lemma LeaveStrays(y: System, k: ConnId, t: Drops, y': System)
    requires SysInv(y) && NoStrays(y) && SysNext(y, TakeLeave(k, t), y')
    ensures NoStrays(y') && OverKicked(y'.hub)
  {
    var c := y.conns[k];
    CommandKicks(y.hub, Leave(c.id, c.gen, c.unexpected), Silent, t, y'.hub, true);
    forall j | j in y'.conns && y'.conns[j].Live? ensures Rightful(y', j) {
      assert Rightful(y, j);
      if LeaveMatches(y.hub, c.id, c.gen) && y.conns[j].id == c.id { assert SlotOwned(y, c.id); }
    }
  }

  lemma OtherStrays(y: System, a: Action, y': System)
    requires SysInv(y) && NoStrays(y) && SysNext(y, a, y') && (a.TakeExpiry? || a.Serve?)
    ensures NoStrays(y') && OverKicked(y'.hub)
  {
    var cmd := if a.TakeExpiry? then GraceExpired(a.p.0, a.p.1) else a.cmd;
    CommandKicks(y.hub, cmd, Silent, a.t, y'.hub, true);
    forall j | j in y'.conns && y'.conns[j].Live? ensures Rightful(y', j) { assert Rightful(y, j); }
  }

  lemma IdleStrays(y: System, a: Action, y': System)
    requires NoStrays(y) && OverKicked(y.hub) && SysNext(y, a, y') && (a.Dial? || a.End? || a.Fire? || a.Use?)
    ensures NoStrays(y') && OverKicked(y'.hub)
  {
    if a.Use? {
      forall x | x in y.hub.clients ensures y'.hub.clients[x].conn == y.hub.clients[x].conn { assert Drift(y.hub.clients[x], y'.hub.clients[x], true); }
    }
    forall j | j in y'.conns && y'.conns[j].Live? ensures Rightful(y', j) {
      assert Rightful(y, j);
      if a.Use? && y.conns[j].id in y.hub.clients { assert Drift(y.hub.clients[y.conns[j].id], y'.hub.clients[y.conns[j].id], true); }
    }
  }

  lemma {:induction false} RunStrays(ys: seq<System>, acts: seq<Action>, i: nat)
    requires SysRun(ys, acts) && i < |ys|
    ensures NoStrays(ys[i]) && OverKicked(ys[i].hub)
  {
    if i > 0 {
      var y, a, y' := ys[i - 1], acts[i - 1], ys[i];
      assert SysNext(y, a, y');
      RunStrays(ys, acts, i - 1);
      SysRunKeeps(ys, acts, i - 1);
      AskersAsk(ys, acts, i - 1);
      match a
      case Answer(k, reply, t) => AnswerStrays(y, k, reply, t, y');
      case TakeLeave(k, t) => LeaveStrays(y, k, t, y');
      case TakeExpiry(_, _) => OtherStrays(y, a, y');
      case Serve(_, _) => OtherStrays(y, a, y');
      case _ => IdleStrays(y, a, y');
    }
  }

  /** In every run a connection that is seated and has not left owns the slot and generation it was given,
      or the hub has kicked it; and once the session is over, it has kicked every one: nobody who was
      replaced, evicted or expired, or outlived the session, is left reading. */
  lemma LosersAreKicked(ys: seq<System>, acts: seq<Action>, i: nat, k: ConnId)
    requires SysRun(ys, acts) && i < |ys| && k in ys[i].conns && ys[i].conns[k].Live?
    ensures k in ys[i].hub.kicked || (!ys[i].hub.over && Holder(ys[i].hub, k, ys[i].conns[k].id, ys[i].conns[k].gen))
  {
    RunStrays(ys, acts, i);
    assert Rightful(ys[i], k);
  }
}
