/** The hub's seats as a ledger: who has which id, under which token, on which connection, in which
    generation, held or not, and who is host. The ledger knows nothing of queues or of frames; its
    entries and the answers to joins and resumes are functions of the commands handled. */
module HubLedger {
  import opened Wire
  import opened HubSpec
  import opened HubViews
  import opened HubRefine
  import opened Membership

  datatype Seat = Seat(token: Token, conn: ConnId, gen: nat, held: bool)

  datatype Book = Book(max: nat, grace: nat, seats: map<Id, Seat>, nextId: Id, host: Id, over: bool)

  /** What a connection is told: nothing, a refusal, or its id and generation. */
  datatype Answer = Nothing | No(code: nat) | Yes(id: Id, gen: nat)

  function Owner(b: Book, id: Id, gen: nat, held: bool): bool {
    id in b.seats && b.seats[id].gen == gen && b.seats[id].held == held
  }

  function Struck(b: Book, ids: set<Id>): Book {
    var seats := b.seats - ids;
    b.(seats := seats, over := b.over || (ids != {} && seats == map[]))
  }

  /** The entry a command makes. */
  function Entry(b: Book, cmd: Command): Book {
    match cmd
    case Join(_, conn, token) =>
      if |b.seats| < b.max then b.(seats := b.seats[b.nextId := Seat(token, conn, 1, false)], nextId := b.nextId + 1) else b
    case Leave(id, gen, unexpected) =>
      if !Owner(b, id, gen, false) then b
      else if unexpected && b.grace > 0 then b.(seats := b.seats[id := b.seats[id].(held := true, gen := gen + 1)])
      else Struck(b, {id})
    case GraceExpired(id, gen) => if Owner(b, id, gen, true) then Struck(b, {id}) else b
    case Resume(id, token, conn) =>
      if id in b.seats && b.seats[id].token == token then
        b.(seats := b.seats[id := Seat(token, conn, b.seats[id].gen + 1, false)])
      else b
    case ClaimHost(id) => if id in b.seats then b.(host := id) else b
    case Close(_) => b.(over := true)
    case Forward(_, _) => b
    case Stats => b
  }

  function Told(b: Book, cmd: Command): Answer {
    match cmd
    case Join(_, _, _) => if |b.seats| < b.max then Yes(b.nextId, 1) else No(ERR_SESSION_FULL)
    case Resume(id, token, _) =>
      if id in b.seats && b.seats[id].token == token then Yes(id, b.seats[id].gen + 1) else No(ERR_RESUME_REJECTED)
    case _ => Nothing
  }

  // ----- The hub keeps the ledger -----

  function SeatOf(c: Client): Seat {
    Seat(c.token, c.conn, c.gen, c.held)
  }

  function Kept(s: HubState): Book {
    Book(s.max, s.grace, map id | id in s.clients :: SeatOf(s.clients[id]), s.nextId, s.host, s.over)
  }

  predicate Answers(reply: Reply, a: Answer) {
    match a
    case Nothing => reply == Silent
    case No(code) => reply == Refused(code)
    case Yes(id, gen) => reply.Seated? && reply.id == id && reply.gen == gen
  }

  lemma BroadcastBook(s: HubState, f: Frame, except: Id, s': HubState, concurrent: bool)
    requires BroadcastStep(s, f, except, s', concurrent)
    ensures Kept(s') == Kept(s)
  {
    forall x | x in s.clients ensures SeatOf(s'.clients[x]) == SeatOf(s.clients[x]) {
      assert Fanned(s, f, except, s', x, concurrent);
    }
    assert Kept(s').seats == Kept(s).seats;
  }

  lemma SendBook(s: HubState, to: Id, f: Frame, s': HubState, concurrent: bool)
    requires SendStep(s, to, f, s', concurrent)
    ensures Kept(s') == Kept(s)
  {
    if to in s.clients {
      forall x | x in s.clients ensures SeatOf(s'.clients[x]) == SeatOf(s.clients[x]) {
        assert Sent(s, f, to, s', x, concurrent);
      }
      assert Kept(s').seats == Kept(s).seats;
    }
  }

  lemma ForwardBook(s: HubState, from: Id, msg: Routed, s': HubState, concurrent: bool)
    requires ForwardStep(s, from, msg, s', concurrent)
    ensures Kept(s') == Kept(s)
  {
    match msg {
      case BadDirect => SendBook(s, from, Error(ERR_BAD_FRAME), s', concurrent);
      case BadBroadcast => SendBook(s, from, Error(ERR_BAD_FRAME), s', concurrent);
      case ToOne(to, p) =>
        if to in s.clients {
          SendBook(s, to, Direct(from, to, p), s', concurrent);
        } else {
          SendBook(s, from, Error(ERR_UNKNOWN_PEER), s', concurrent);
        }
      case ToAll(p) => BroadcastBook(s, Broadcast(from, p), from, s', concurrent);
    }
  }

  lemma SameSize(s: HubState)
    ensures |Kept(s).seats| == |s.clients|
  {
    assert Kept(s).seats.Keys == s.clients.Keys;
    assert |Kept(s).seats.Keys| == |Kept(s).seats| && |s.clients.Keys| == |s.clients|;
  }

  lemma RemoveBook(s: HubState, id: Id, s': HubState, concurrent: bool)
    requires RemoveStep(s, id, s', concurrent) && id in s.clients && !s.over
    ensures Kept(s') == Struck(Kept(s), {id})
  {
    var w := Without(s, id);
    assert Kept(w).seats == Kept(s).seats - {id};
    SameSize(w);
    if |s.clients - {id}| != 0 {
      BroadcastBook(w, ParticipantLeft(id), 0, s', concurrent);
    }
  }

  lemma JoinBook(s: HubState, isCreate: bool, conn: ConnId, token: Token, reply: Reply, m: HubState, concurrent: bool)
    requires JoinStep(s, isCreate, conn, token, reply, m, concurrent) && s.nextId + 1 < ID_SPACE && !s.over
    ensures Kept(m) == Entry(Kept(s), Join(isCreate, conn, token)) && Answers(reply, Told(Kept(s), Join(isCreate, conn, token)))
  {
    SameSize(s);
    if |s.clients| < s.max {
      var r := Registered(s, isCreate, conn, token);
      assert Kept(r).seats == Kept(s).seats[s.nextId := Seat(token, conn, 1, false)];
      BroadcastBook(r, ParticipantJoined(s.nextId), s.nextId, m, concurrent);
    }
  }

  lemma CloseBook(s: HubState, reason: string, m: HubState, concurrent: bool)
    requires CloseStep(s, reason, m, concurrent)
    ensures Kept(m) == Kept(s).(over := true)
  {
    var b :| BroadcastStep(s, SessionClosed(reason), 0, b, concurrent) && m == Ended(b);
    BroadcastBook(s, SessionClosed(reason), 0, b, concurrent);
    assert Kept(m).seats == Kept(b).seats;
  }

  lemma HoldBook(s: HubState, id: Id)
    requires id in s.clients
    ensures Kept(HeldSlot(s, id)) == Kept(s).(seats := Kept(s).seats[id := SeatOf(s.clients[id]).(held := true, gen := s.clients[id].gen + 1)])
  {
    assert Kept(HeldSlot(s, id)).seats == Kept(s).seats[id := SeatOf(s.clients[id]).(held := true, gen := s.clients[id].gen + 1)];
  }

  lemma ResumeBook(s: HubState, id: Id, conn: ConnId)
    requires id in s.clients && s.clients[id].taken <= |s.clients[id].stream|
    ensures Kept(ResumedSlot(s, id, conn)) == Kept(s).(seats := Kept(s).seats[id := Seat(s.clients[id].token, conn, s.clients[id].gen + 1, false)])
  {
    assert Kept(ResumedSlot(s, id, conn)).seats == Kept(s).seats[id := Seat(s.clients[id].token, conn, s.clients[id].gen + 1, false)];
  }

  lemma HandlerBook(s: HubState, cmd: Command, reply: Reply, m: HubState, concurrent: bool)
    requires HandlerStep(s, cmd, reply, m, concurrent) && !s.over && (cmd.Join? ==> s.nextId + 1 < ID_SPACE)
    ensures Kept(m) == Entry(Kept(s), cmd) && Answers(reply, Told(Kept(s), cmd))
  {
    match cmd {
      case Join(isCreate, conn, token) => JoinBook(s, isCreate, conn, token, reply, m, concurrent);
      case Leave(id, gen, unexpected) =>
        if LeaveMatches(s, id, gen) {
          if Holds(s, unexpected) { HoldBook(s, id); } else { RemoveBook(s, id, m, concurrent); }
        }
      case GraceExpired(id, gen) => if ExpiryMatches(s, id, gen) { RemoveBook(s, id, m, concurrent); }
      case Resume(id, token, conn) => if ResumeMatches(s, id, token) { ResumeBook(s, id, conn); }
      case ClaimHost(id) => assert Kept(m).seats == Kept(s).seats;
      case Forward(from, msg) => ForwardBook(s, from, msg, m, concurrent);
      case Stats =>
      case Close(reason) => CloseBook(s, reason, m, concurrent);
    }
  }

  lemma StruckMore(b: Book, ids: set<Id>, id: Id)
    requires !Struck(b, ids).over
    ensures Struck(Struck(b, ids), {id}) == Struck(b, ids + {id})
  {
    assert b.seats - ids - {id} == b.seats - (ids + {id});
  }

  lemma {:induction false} DrainBook(s: HubState, t: Drops, s': HubState, concurrent: bool)
    requires Mid(s) && !s.over && DrainTrace(s, t, s', concurrent)
    ensures Kept(s') == Struck(Kept(s), IdSet(t))
  {
    if t.Drop? {
      DrainBook(s, t.before, t.at, concurrent);
      DrainMid(s, t.before, t.at, concurrent);
      DrainStepKeeps(t.at, t.id, s', concurrent);
      var p := PopEvict(t.at);
      assert Kept(p).seats == Kept(t.at).seats;
      RemoveBook(p, t.id, s', concurrent);
      StruckMore(Kept(s), IdSet(t.before), t.id);
    } else {
      assert Kept(s).seats - {} == Kept(s).seats;
    }
  }

  /** One command: its entry, then everybody it evicted struck out; and its answer. */
  lemma CommandBook(s: HubState, cmd: Command, reply: Reply, t: Drops, s': HubState, concurrent: bool)
    requires Boundary(s) && CommandStep(s, cmd, reply, t, s', concurrent) && (cmd.Join? ==> s.nextId + 1 < ID_SPACE)
    ensures Kept(s') == Struck(Entry(Kept(s), cmd), IdSet(t)) && Answers(reply, Told(Kept(s), cmd))
  {
    var m :| HandlerStep(s, cmd, reply, m, concurrent) && DrainUnlessOver(m, t, s', concurrent);
    HandlerBook(s, cmd, reply, m, concurrent);
    DrainedBook(s, cmd, reply, m, t, s', concurrent);
  }

  lemma DrainedBook(s: HubState, cmd: Command, reply: Reply, m: HubState, t: Drops, s': HubState, concurrent: bool)
    requires Boundary(s) && !s.over && HandlerStep(s, cmd, reply, m, concurrent) && DrainUnlessOver(m, t, s', concurrent)
    requires cmd.Join? ==> s.nextId + 1 < ID_SPACE
    ensures Kept(s') == Struck(Kept(m), IdSet(t))
  {
    HandlerKeeps(s, cmd, reply, m, concurrent);
    if m.over {
      assert Kept(m).seats - {} == Kept(m).seats;
    } else {
      DrainBook(m, t, s', concurrent);
    }
  }

  // ----- Runs -----

  function Booked(b: Book, l: Label): Book {
    match l
    case Quiet => b
    case Did(cmd, _, t) => Struck(Entry(b, cmd), IdSet(t))
  }

  /** The ledger after the first `i` labels. */
  function BookAt(max: nat, grace: nat, labels: seq<Label>, i: nat): Book
    requires i <= |labels|
  {
    if i == 0 then Book(max, grace, map[], HOST_ID, HOST_ID, false) else Booked(BookAt(max, grace, labels, i - 1), labels[i - 1])
  }

  lemma QuietBook(s: HubState, s': HubState)
    requires DriftStep(s, s')
    ensures Kept(s') == Kept(s)
  {
    forall x | x in s.clients ensures SeatOf(s'.clients[x]) == SeatOf(s.clients[x]) { assert Drift(s.clients[x], s'.clients[x], true); }
    assert Kept(s').seats == Kept(s).seats;
  }

  lemma StepBook(states: seq<HubState>, labels: seq<Label>, i: nat)
    requires Run(states, labels) && i < |labels|
    ensures Kept(states[i + 1]) == Booked(Kept(states[i]), labels[i])
    ensures labels[i].Did? ==> Answers(labels[i].reply, Told(Kept(states[i]), labels[i].cmd))
  {
    RunKeeps(states, labels, i);
    assert Takes(states, labels, i);
    match labels[i]
    case Quiet => QuietBook(states[i], states[i + 1]);
    case Did(cmd, reply, t) => CommandBook(states[i], cmd, reply, t, states[i + 1], true);
  }

  /** In every run the hub's seats, host, counter and end are the ledger's, whatever its queues did, and
      every join and resume is answered by the ledger. */
  lemma {:induction false} RunBook(states: seq<HubState>, labels: seq<Label>, i: nat)
    requires Run(states, labels) && i < |states|
    ensures Kept(states[i]) == BookAt(states[0].max, states[0].grace, labels, i)
    ensures i < |labels| && labels[i].Did? ==>
      Answers(labels[i].reply, Told(BookAt(states[0].max, states[0].grace, labels, i), labels[i].cmd))
  {
    if i == 0 {
      assert Kept(states[0]).seats == map[];
    } else {
      RunBook(states, labels, i - 1);
      StepBook(states, labels, i - 1);
    }
    if i < |labels| { StepBook(states, labels, i); }
  }

  // ----- Who is host -----

  /** The last claim of the first `i` labels by somebody who was in the session then, or the creator's
      id. */
  function LastClaim(states: seq<HubState>, labels: seq<Label>, i: nat): Id
    requires |states| == |labels| + 1 && i <= |labels|
  {
    if i == 0 then HOST_ID
    else if labels[i - 1].Did? && labels[i - 1].cmd.ClaimHost? && labels[i - 1].cmd.id in states[i - 1].clients then labels[i - 1].cmd.id
    else LastClaim(states, labels, i - 1)
  }

  lemma {:induction false} HostIsLastClaim(states: seq<HubState>, labels: seq<Label>, i: nat)
    requires Run(states, labels) && i < |states|
    ensures states[i].host == LastClaim(states, labels, i)
  {
    if i > 0 {
      HostIsLastClaim(states, labels, i - 1);
      StepHost(states, labels, i - 1);
    }
  }

  lemma BookedHost(b: Book, l: Label)
    ensures Booked(b, l).host == if l.Did? && l.cmd.ClaimHost? && l.cmd.id in b.seats then l.cmd.id else b.host
  {
    if l.Did? {
      EntryHost(b, l.cmd);
      assert Booked(b, l).host == Entry(b, l.cmd).host;
    }
  }

  lemma EntryHost(b: Book, cmd: Command)
    ensures Entry(b, cmd).host == if cmd.ClaimHost? && cmd.id in b.seats then cmd.id else b.host
  {
  }

  lemma StepHost(states: seq<HubState>, labels: seq<Label>, i: nat)
    requires Run(states, labels) && i < |labels|
    ensures
      var s, l := states[i], labels[i];
      states[i + 1].host == if l.Did? && l.cmd.ClaimHost? && l.cmd.id in s.clients then l.cmd.id else s.host
  {
    StepBook(states, labels, i);
    BookedHost(Kept(states[i]), labels[i]);
    assert Kept(states[i]).seats.Keys == states[i].clients.Keys;
    assert Kept(states[i + 1]).host == states[i + 1].host && Kept(states[i]).host == states[i].host;
  }

  // ----- What a connection is greeted with -----

  predicate SeatsNow(l: Label, x: Id) {
    l.Did? && l.reply.Seated? && l.reply.id == x
  }

  datatype Greeting = Ungreeted | Created | Named(host: Id)

  /** The reply to the last join or resume that seated `x`: to a creator, or naming the host there was. */
  function Greeted(states: seq<HubState>, labels: seq<Label>, i: nat, x: Id): Greeting
    requires |states| == |labels| + 1 && i <= |labels|
  {
    if i == 0 then Ungreeted
    else if SeatsNow(labels[i - 1], x) then
      if labels[i - 1].cmd.Join? && labels[i - 1].cmd.isCreate then Created else Named(LastClaim(states, labels, i - 1))
    else Greeted(states, labels, i - 1, x)
  }

  predicate Says(f: Frame, g: Greeting, x: Id, token: Token) {
    match g
    case Ungreeted => false
    case Created => f == SessionCreated(x, token)
    case Named(host) => f.JoinResult? && f == JoinResult(x, f.peers, host, token)
  }

  /** Between two states on one connection a stream only grows. */
  ghost predicate Grows(s: HubState, s': HubState, x: Id) {
    x in s'.clients ==> x in s.clients && s.clients[x].stream <= s'.clients[x].stream && s'.clients[x].held == s.clients[x].held
  }

  ghost predicate AllGrow(s: HubState, s': HubState) {
    forall x {:trigger Grows(s, s', x)} :: Grows(s, s', x)
  }

  lemma GrowOn(a: HubState, b: HubState, c: HubState)
    requires AllGrow(a, b) && AllGrow(b, c)
    ensures AllGrow(a, c)
  {
    forall x ensures Grows(a, c, x) { assert Grows(a, b, x) && Grows(b, c, x); }
  }

  lemma QueuedGrows(c: Client, f: Frame, c': Client, concurrent: bool)
    requires Queued(c, f, c', concurrent)
    ensures c.stream <= c'.stream && c'.held == c.held
  {
  }

  lemma BroadcastGrows(s: HubState, f: Frame, except: Id, s': HubState, concurrent: bool)
    requires BroadcastStep(s, f, except, s', concurrent)
    ensures AllGrow(s, s')
  {
    forall x ensures Grows(s, s', x) {
      if x in s.clients {
        assert Fanned(s, f, except, s', x, concurrent);
        if x != except { QueuedGrows(s.clients[x], f, s'.clients[x], concurrent); }
      }
    }
  }

  lemma SendGrows(s: HubState, to: Id, f: Frame, s': HubState, concurrent: bool)
    requires SendStep(s, to, f, s', concurrent)
    ensures AllGrow(s, s')
  {
    forall x ensures Grows(s, s', x) {
      if x in s.clients && to in s.clients {
        assert Sent(s, f, to, s', x, concurrent);
        if x == to { QueuedGrows(s.clients[x], f, s'.clients[x], concurrent); }
      }
    }
  }

  lemma RemoveGrows(s: HubState, id: Id, s': HubState, concurrent: bool)
    requires RemoveStep(s, id, s', concurrent)
    ensures AllGrow(s, s')
  {
    if id in s.clients {
      var w := Without(s, id);
      assert AllGrow(s, w);
      if |s.clients - {id}| != 0 {
        BroadcastGrows(w, ParticipantLeft(id), 0, s', concurrent);
        GrowOn(s, w, s');
      }
    }
  }

  lemma {:induction false} DrainGrows(s: HubState, t: Drops, s': HubState, concurrent: bool)
    requires DrainTrace(s, t, s', concurrent)
    ensures AllGrow(s, s')
  {
    if t.Drop? {
      DrainGrows(s, t.before, t.at, concurrent);
      var p := PopEvict(t.at);
      assert AllGrow(t.at, p);
      RemoveGrows(p, t.id, s', concurrent);
      GrowOn(t.at, p, s');
      GrowOn(s, t.at, s');
    }
  }

  lemma ForwardGrows(s: HubState, from: Id, msg: Routed, s': HubState, concurrent: bool)
    requires ForwardStep(s, from, msg, s', concurrent)
    ensures AllGrow(s, s')
  {
    match msg {
      case BadDirect => SendGrows(s, from, Error(ERR_BAD_FRAME), s', concurrent);
      case BadBroadcast => SendGrows(s, from, Error(ERR_BAD_FRAME), s', concurrent);
      case ToOne(to, p) =>
        if to in s.clients {
          SendGrows(s, to, Direct(from, to, p), s', concurrent);
        } else {
          SendGrows(s, from, Error(ERR_UNKNOWN_PEER), s', concurrent);
        }
      case ToAll(p) => BroadcastGrows(s, Broadcast(from, p), from, s', concurrent);
    }
  }

  lemma CloseGrows(s: HubState, reason: string, m: HubState, concurrent: bool)
    requires CloseStep(s, reason, m, concurrent)
    ensures AllGrow(s, m)
  {
    var b :| BroadcastStep(s, SessionClosed(reason), 0, b, concurrent) && m == Ended(b);
    BroadcastGrows(s, SessionClosed(reason), 0, b, concurrent);
    forall x ensures Grows(s, m, x) { assert Grows(s, b, x); }
  }

  /** Whoever a handler does not seat or hold goes on with its stream. */
  lemma HandlerGrows(s: HubState, cmd: Command, reply: Reply, m: HubState, concurrent: bool, x: Id)
    requires HandlerStep(s, cmd, reply, m, concurrent) && x in m.clients && !m.clients[x].held
    requires !(reply.Seated? && reply.id == x)
    ensures Grows(s, m, x)
  {
    match cmd {
      case Join(isCreate, conn, token) =>
        if |s.clients| < s.max {
          var r := Registered(s, isCreate, conn, token);
          BroadcastGrows(r, ParticipantJoined(s.nextId), s.nextId, m, concurrent);
          assert Grows(r, m, x);
        }
      case Leave(id, gen, unexpected) =>
        if LeaveMatches(s, id, gen) && !Holds(s, unexpected) { RemoveGrows(s, id, m, concurrent); }
      case GraceExpired(id, gen) => if ExpiryMatches(s, id, gen) { RemoveGrows(s, id, m, concurrent); }
      case Resume(_, _, _) =>
      case ClaimHost(_) =>
      case Forward(from, msg) => ForwardGrows(s, from, msg, m, concurrent);
      case Stats =>
      case Close(reason) => CloseGrows(s, reason, m, concurrent);
    }
  }

  /** Whoever a handler seats begins with its reply. */
  lemma HandlerGreets(s: HubState, cmd: Command, reply: Reply, m: HubState, concurrent: bool, x: Id)
    requires HandlerStep(s, cmd, reply, m, concurrent) && x in m.clients && reply.Seated? && reply.id == x
    ensures m.clients[x].stream != []
    ensures Says(m.clients[x].stream[0], if cmd.Join? && cmd.isCreate then Created else Named(s.host), x, m.clients[x].token)
  {
    if cmd.Join? {
      var r := Registered(s, cmd.isCreate, cmd.conn, cmd.token);
      BroadcastGrows(r, ParticipantJoined(s.nextId), s.nextId, m, concurrent);
      assert Grows(r, m, x) && Fanned(r, ParticipantJoined(s.nextId), s.nextId, m, x, concurrent);
    }
  }

  lemma StepGreets(states: seq<HubState>, labels: seq<Label>, i: nat, x: Id)
    requires Run(states, labels) && i < |labels| && x in states[i + 1].clients && !states[i + 1].clients[x].held
    ensures !SeatsNow(labels[i], x) ==> Grows(states[i], states[i + 1], x)
    ensures SeatsNow(labels[i], x) ==>
      var l, c := labels[i], states[i + 1].clients[x];
      c.stream != [] && Says(c.stream[0], if l.cmd.Join? && l.cmd.isCreate then Created else Named(states[i].host), x, c.token)
  {
    var s, s' := states[i], states[i + 1];
    assert Takes(states, labels, i);
    if labels[i].Did? {
      var cmd, reply, t := labels[i].cmd, labels[i].reply, labels[i].removed;
      var m :| HandlerStep(s, cmd, reply, m, true) && DrainUnlessOver(m, t, s', true);
      if m.over { assert AllGrow(m, s'); } else { DrainGrows(m, t, s', true); }
      assert Grows(m, s', x);
      RunKeeps(states, labels, i + 1);
      StepToken(states, labels, i, m, x);
      if SeatsNow(labels[i], x) { HandlerGreets(s, cmd, reply, m, true, x); } else { HandlerGrows(s, cmd, reply, m, true, x); }
    } else {
      assert Drift(s.clients[x], s'.clients[x], true);
    }
  }

  lemma StepToken(states: seq<HubState>, labels: seq<Label>, i: nat, m: HubState, x: Id)
    requires Run(states, labels) && i < |labels| && x in states[i + 1].clients && labels[i].Did?
    requires HandlerStep(states[i], labels[i].cmd, labels[i].reply, m, true) && DrainUnlessOver(m, labels[i].removed, states[i + 1], true)
    ensures x in m.clients && m.clients[x].token == states[i + 1].clients[x].token
  {
    var s, l := states[i], labels[i];
    RunKeeps(states, labels, i);
    assert Takes(states, labels, i);
    HandlerKeeps(s, l.cmd, l.reply, m, true);
    if !m.over { DrainToken(m, l.removed, states[i + 1], x); }
  }

  lemma DrainToken(m: HubState, t: Drops, s': HubState, x: Id)
    requires Mid(m) && !m.over && DrainTrace(m, t, s', true) && x in s'.clients
    ensures x in m.clients && m.clients[x].token == s'.clients[x].token
  {
    DrainBook(m, t, s', true);
    assert x in Kept(s').seats;
    assert Kept(s').seats[x] == Kept(m).seats[x];
  }

  /** In every run a live connection's stream begins with the reply to the join or resume that seated it:
      SessionCreated for a creator, and otherwise a JoinResult with the token of the slot and the
      host of that moment, the last to have claimed it. */
  lemma {:induction false} GreetedByHost(states: seq<HubState>, labels: seq<Label>, i: nat, x: Id)
    requires Run(states, labels) && i < |states| && x in states[i].clients && !states[i].clients[x].held
    ensures states[i].clients[x].stream != []
    ensures Says(states[i].clients[x].stream[0], Greeted(states, labels, i, x), x, states[i].clients[x].token)
  {
    if i > 0 {
      StepGreets(states, labels, i - 1, x);
      if SeatsNow(labels[i - 1], x) {
        HostIsLastClaim(states, labels, i - 1);
      } else {
        GreetedByHost(states, labels, i - 1, x);
        StepBook(states, labels, i - 1);
        SeatSame(states, labels, i - 1, x);
      }
    }
  }

  // ----- Tokens -----

  /** The token of the last join that seated `x`. */
  function Issued(labels: seq<Label>, i: nat, x: Id): Option<Token>
    requires i <= |labels|
  {
    if i == 0 then None
    else if SeatsNow(labels[i - 1], x) && labels[i - 1].cmd.Join? then Some(labels[i - 1].cmd.token)
    else Issued(labels, i - 1, x)
  }

  /** A label that does not seat `x` by a join leaves its token alone; one that does sets it. */
  lemma TokenKept(b: Book, l: Label, x: Id)
    requires (l.Did? ==> Answers(l.reply, Told(b, l.cmd))) && x in Booked(b, l).seats
    ensures if SeatsNow(l, x) && l.cmd.Join? then Booked(b, l).seats[x].token == l.cmd.token
            else x in b.seats && Booked(b, l).seats[x].token == b.seats[x].token
  {
    if l.Did? { assert Booked(b, l).seats[x] == Entry(b, l.cmd).seats[x]; }
  }

  lemma SeatSame(states: seq<HubState>, labels: seq<Label>, i: nat, x: Id)
    requires Run(states, labels) && i < |labels| && x in states[i + 1].clients
    requires !(SeatsNow(labels[i], x) && labels[i].cmd.Join?)
    ensures x in states[i].clients && states[i + 1].clients[x].token == states[i].clients[x].token
  {
    StepBook(states, labels, i);
    assert x in Kept(states[i + 1]).seats;
    TokenKept(Kept(states[i]), labels[i], x);
  }

  lemma {:induction false} TokenWasIssued(states: seq<HubState>, labels: seq<Label>, i: nat, x: Id)
    requires Run(states, labels) && i < |states| && x in states[i].clients
    ensures Issued(labels, i, x) == Some(states[i].clients[x].token)
  {
    if i > 0 {
      if SeatsNow(labels[i - 1], x) && labels[i - 1].cmd.Join? {
        StepBook(states, labels, i - 1);
        assert x in Kept(states[i]).seats;
        TokenKept(Kept(states[i - 1]), labels[i - 1], x);
      } else {
        SeatSame(states, labels, i - 1, x);
        TokenWasIssued(states, labels, i - 1, x);
      }
    }
  }

  /** In every run a resume is answered with a seat if and only if its id is a member by the run's arrivals
      and departures and it carries the token of that member's join; otherwise it is refused and
      nothing changes. */
  lemma ResumeExactly(states: seq<HubState>, labels: seq<Label>, i: nat)
    requires Run(states, labels) && i < |labels| && labels[i].Did? && labels[i].cmd.Resume?
    ensures
      var cmd, reply, r := labels[i].cmd, labels[i].reply, ApplyAll(Roster(map[], HOST_ID), RunEvents(states, labels, i));
      && (reply.Seated? <==> cmd.id in r.members && r.members[cmd.id] == cmd.token)
      && (cmd.id in r.members ==> Issued(labels, i, cmd.id) == Some(r.members[cmd.id]))
      && (reply.Seated? ==> reply.id == cmd.id)
      && (!reply.Seated? ==> reply == Refused(ERR_RESUME_REJECTED) && states[i + 1] == states[i])
  {
    RunRefines(states, labels, i);
    StepBook(states, labels, i);
    RunKeeps(states, labels, i);
    var s, cmd := states[i], labels[i].cmd;
    if cmd.id in s.clients { TokenWasIssued(states, labels, i, cmd.id); }
    assert Kept(s).seats.Keys == s.clients.Keys == Abs(s).members.Keys;
    if !labels[i].reply.Seated? { RefusedUnchanged(states, labels, i); }
  }

  lemma RefusedUnchanged(states: seq<HubState>, labels: seq<Label>, i: nat)
    requires Run(states, labels) && i < |labels| && labels[i].Did? && labels[i].cmd.Resume? && !labels[i].reply.Seated?
    ensures states[i + 1] == states[i]
  {
    RunKeeps(states, labels, i);
    assert Takes(states, labels, i);
    var l := labels[i];
    var m :| HandlerStep(states[i], l.cmd, l.reply, m, true) && DrainUnlessOver(m, l.removed, states[i + 1], true);
    NothingToDrain(m, l.removed, states[i + 1], true);
  }
}
