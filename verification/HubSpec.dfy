/** One session as the relay's hub sees it: state, the effect of each command as a relation,
    and runs.

    Map iteration order and the activity of connection goroutines are left open, so one command
    can have several outcomes. */
module HubSpec {
  import opened Wire

  const SEND_BUFFER: nat := 64
  const HOST_ID: Id := 1

  type ConnId = nat

  /** The hub's view of one participant.

      The out channel is kept as everything it ever accepted (`stream`) and how much of that the
      writer has received (`taken`), so its contents are `stream[taken..]`. `chan` is the
      channel's identity and `conn` the connection whose kick function the slot stores.
      `phantom` is a history variable: the departed ids a resumed client still believes in. */
  datatype Client = Client(
    conn: ConnId,
    token: Token,
    held: bool,
    gen: nat,
    chan: nat,
    stream: seq<Frame>,
    taken: nat,
    evicting: bool,
    phantom: set<Id>)

  /** `kicked` collects the connections told to stop and `nextChan` numbers channels; `over`
      says that the hub's goroutine has returned. */
  datatype HubState = HubState(
    max: nat,
    grace: nat,
    clients: map<Id, Client>,
    nextId: Id,
    host: Id,
    evict: seq<Id>,
    kicked: set<ConnId>,
    nextChan: nat,
    over: bool)

  ghost predicate Init(s: HubState) {
    s == HubState(s.max, s.grace, map[], HOST_ID, HOST_ID, [], {}, 0, false)
  }

  function Backlog(c: Client): int {
    |c.stream| - c.taken
  }

  predicate ChannelOk(c: Client) {
    c.taken <= |c.stream| && Backlog(c) <= SEND_BUFFER && (c.held ==> c.taken == 0)
  }

  // ----- Concurrent activity on a channel -----

  predicate IsLocalReply(f: Frame) {
    f == Pong || f == Error(ERR_BAD_FRAME)
  }

  /** What a connection's own goroutines may do to its channel: the writer receives frames and
      the read loop queues Pong and Error replies while there is room. A held slot has neither. */
  ghost predicate Drift(c: Client, d: Client, concurrent: bool) {
    if c.held || !concurrent then d == c
    else
      && d == c.(stream := d.stream, taken := d.taken)
      && c.stream <= d.stream
      && (forall i :: |c.stream| <= i < |d.stream| ==> IsLocalReply(d.stream[i]))
      && c.taken <= d.taken <= |d.stream|
      && Backlog(d) <= SEND_BUFFER
  }

  // ----- queue and broadcastFrame -----

  /** The effect of offering one frame: accepted, or the client is marked for eviction. */
  function Offered(c: Client, f: Frame): Client {
    if c.evicting then c
    else if Backlog(c) < SEND_BUFFER then c.(stream := c.stream + [f])
    else c.(evicting := true)
  }

  ghost predicate Queued(c: Client, f: Frame, c': Client, concurrent: bool) {
    exists d :: Drift(c, d, concurrent) && c' == Offered(d, f)
  }

  predicate NewlyEvicting(s: HubState, s': HubState, id: Id) {
    id in s.clients && id in s'.clients && s'.clients[id].evicting && !s.clients[id].evicting
  }

  /** The evict list grew by exactly the clients newly marked, each once, in any order; the live
      ones among them were kicked. */
  ghost predicate EvictGrew(s: HubState, s': HubState) {
    && s.evict <= s'.evict
    && (forall i, j :: |s.evict| <= i < j < |s'.evict| ==> s'.evict[i] != s'.evict[j])
    && (forall i :: |s.evict| <= i < |s'.evict| ==> NewlyEvicting(s, s', s'.evict[i]))
    && (forall id :: NewlyEvicting(s, s', id) ==> id in s'.evict[|s.evict|..])
    && s'.kicked == s.kicked + KickedConns(s, s')
  }

  function KickedConns(s: HubState, s': HubState): set<ConnId> {
    set id | id in s.clients && NewlyEvicting(s, s', id) && !s.clients[id].held :: s.clients[id].conn
  }

  /** Nothing but client records, the evict list and the kicks changed. */
  predicate SameFrame(s: HubState, s': HubState) {
    s' == s.(clients := s'.clients, evict := s'.evict, kicked := s'.kicked)
  }

  ghost predicate BroadcastStep(s: HubState, f: Frame, except: Id, s': HubState, concurrent: bool) {
    && SameFrame(s, s')
    && s'.clients.Keys == s.clients.Keys
    && (forall id {:trigger Fanned(s, f, except, s', id, concurrent)} ::
          id in s.clients ==> Fanned(s, f, except, s', id, concurrent))
    && EvictGrew(s, s')
  }

  /** What one client saw of a fan-out: nothing if it was skipped, else an offer of the frame. */
  ghost predicate Fanned(s: HubState, f: Frame, except: Id, s': HubState, id: Id, concurrent: bool)
    requires id in s.clients && id in s'.clients
  {
    if id == except then s'.clients[id] == s.clients[id]
    else Queued(s.clients[id], f, s'.clients[id], concurrent)
  }

  ghost predicate Sent(s: HubState, f: Frame, to: Id, s': HubState, id: Id, concurrent: bool)
    requires id in s.clients && id in s'.clients
  {
    if id == to then Queued(s.clients[id], f, s'.clients[id], concurrent)
    else s'.clients[id] == s.clients[id]
  }

  ghost predicate SendStep(s: HubState, to: Id, f: Frame, s': HubState, concurrent: bool) {
    if to !in s.clients then s' == s
    else
      && SameFrame(s, s')
      && s'.clients.Keys == s.clients.Keys
      && (forall id {:trigger Sent(s, f, to, s', id, concurrent)} ::
            id in s.clients ==> Sent(s, f, to, s', id, concurrent))
      && EvictGrew(s, s')
  }

  // ----- removeParticipant and drainEvictions -----

  function Without(s: HubState, id: Id): HubState
    requires id in s.clients
  {
    s.(clients := s.clients - {id}, kicked := s.kicked + {s.clients[id].conn})
  }

  /** Removal before notice: the slot is gone when the survivors are told. */
  ghost predicate RemoveStep(s: HubState, id: Id, s': HubState, concurrent: bool) {
    if id !in s.clients then s' == s
    else if |s.clients - {id}| == 0 then s' == Without(s, id).(over := true)
    else BroadcastStep(Without(s, id), ParticipantLeft(id), 0, s', concurrent)
  }

  function PopEvict(s: HubState): HubState
    requires s.evict != []
  {
    s.(evict := s.evict[1..])
  }

  /** The iterations of a drain loop: each drops the head `id` of the evict list at state `at`. */
  datatype Drops = Start | Drop(before: Drops, at: HubState, id: Id)

  function IdSet(t: Drops): set<Id> {
    if t.Start? then {} else IdSet(t.before) + {t.id}
  }

  function Count(t: Drops): nat {
    if t.Start? then 0 else Count(t.before) + 1
  }

  /** Nobody is dropped twice. */
  predicate DropsOnce(t: Drops) {
    t.Drop? ==> DropsOnce(t.before) && t.id !in IdSet(t.before)
  }

  /** The loop started at `s`, went through `t` and is now at `s'`. */
  ghost predicate DrainTrace(s: HubState, t: Drops, s': HubState, concurrent: bool)
    decreases t
  {
    match t
    case Start => s' == s
    case Drop(before, at, id) => DrainTrace(s, before, at, concurrent) && DrainStep(at, id, s', concurrent)
  }

  ghost predicate DrainStep(m: HubState, id: Id, s': HubState, concurrent: bool) {
    !m.over && m.evict != [] && m.evict[0] == id && RemoveStep(PopEvict(m), id, s', concurrent)
  }

  ghost predicate Drained(s: HubState, removed: Drops, s': HubState, concurrent: bool) {
    DrainTrace(s, removed, s', concurrent) && (s'.over || s'.evict == [])
  }

  // ----- Commands -----

  datatype Routed =
    | BadDirect
    | ToOne(to: Id, payload: Payload)
    | BadBroadcast
    | ToAll(payload: Payload)

  datatype Command =
    | Join(isCreate: bool, conn: ConnId, token: Token)
    | Leave(id: Id, gen: nat, unexpected: bool)
    | Resume(id: Id, token: Token, conn: ConnId)
    | GraceExpired(id: Id, gen: nat)
    | ClaimHost(id: Id)
    | Forward(from: Id, msg: Routed)
    | Stats
    | Close(reason: string)

  /** What the asking connection is told; `Silent` for commands without a reply. */
  datatype Reply =
    | Silent
    | Refused(code: nat)
    | Seated(id: Id, gen: nat, chan: nat)

  function PeersExcept(s: HubState, id: Id): set<Id> {
    s.clients.Keys - {id}
  }

  function HelloFrame(s: HubState, isCreate: bool, id: Id, token: Token): Frame {
    if isCreate then SessionCreated(id, token)
    else JoinResult(id, PeersExcept(s, id), s.host, token)
  }

  /** The new client is registered with its reply already queued. */
  function Registered(s: HubState, isCreate: bool, conn: ConnId, token: Token): HubState {
    var id := s.nextId;
    var hello := HelloFrame(s, isCreate, id, token);
    s.(nextId := Successor(id),
       clients := s.clients[id := Client(conn, token, false, 1, s.nextChan, [hello], 0, false, {})],
       nextChan := s.nextChan + 1)
  }

  ghost predicate JoinStep(s: HubState, isCreate: bool, conn: ConnId, token: Token,
                           reply: Reply, s': HubState, concurrent: bool)
  {
    if |s.clients| >= s.max then s' == s && reply == Refused(ERR_SESSION_FULL)
    else
      && reply == Seated(s.nextId, 1, s.nextChan)
      && BroadcastStep(Registered(s, isCreate, conn, token), ParticipantJoined(s.nextId), s.nextId, s', concurrent)
  }

  /** Is this the leave of the connection that currently owns the slot? */
  predicate LeaveMatches(s: HubState, id: Id, gen: nat) {
    id in s.clients && !s.clients[id].held && s.clients[id].gen == gen
  }

  predicate ExpiryMatches(s: HubState, id: Id, gen: nat) {
    id in s.clients && s.clients[id].held && s.clients[id].gen == gen
  }

  function HeldSlot(s: HubState, id: Id): HubState
    requires id in s.clients
  {
    var c := s.clients[id];
    s.(clients := s.clients[id := c.(held := true, gen := c.gen + 1, chan := s.nextChan,
                                     stream := [], taken := 0, phantom := {})],
       nextChan := s.nextChan + 1)
  }

  predicate Holds(s: HubState, unexpected: bool) {
    unexpected && s.grace > 0
  }

  ghost predicate LeaveStep(s: HubState, id: Id, gen: nat, unexpected: bool, s': HubState, concurrent: bool) {
    if !LeaveMatches(s, id, gen) then s' == s
    else if Holds(s, unexpected) then s' == HeldSlot(s, id)
    else RemoveStep(s, id, s', concurrent)
  }

  ghost predicate ExpiryStep(s: HubState, id: Id, gen: nat, s': HubState, concurrent: bool) {
    if ExpiryMatches(s, id, gen) then RemoveStep(s, id, s', concurrent) else s' == s
  }

  predicate ResumeMatches(s: HubState, id: Id, token: Token) {
    id in s.clients && s.clients[id].token == token
  }

  function Min(a: nat, b: nat): nat {
    if a <= b then a else b
  }

  /** The outage frames that still fit behind the JoinResult. */
  function KeptFrames(c: Client): seq<Frame>
    requires c.taken <= |c.stream|
  {
    if !c.held then [] else
    var buffered := c.stream[c.taken..];
    buffered[..Min(|buffered|, SEND_BUFFER - 1)]
  }

  /** What replaying `fs` over the peer list `base` makes a client believe. */
  function Replay(base: set<Id>, fs: seq<Frame>): set<Id> {
    if fs == [] then base else Heed(Replay(base, fs[..|fs| - 1]), fs[|fs| - 1])
  }

  function Heed(view: set<Id>, f: Frame): set<Id> {
    match f
    case SessionCreated(_, _) => {}
    case JoinResult(_, peers, _, _) => peers
    case ParticipantJoined(x) => view + {x}
    case ParticipantLeft(x) => view - {x}
    case _ => view
  }

  /** The membership a client derives from everything its connection delivers. */
  function View(fs: seq<Frame>): set<Id> {
    Replay({}, fs)
  }

  function ResumedSlot(s: HubState, id: Id, conn: ConnId): HubState
    requires id in s.clients && s.clients[id].taken <= |s.clients[id].stream|
  {
    var c := s.clients[id];
    var jr := JoinResult(id, PeersExcept(s, id), s.host, c.token);
    var kept := KeptFrames(c);
    s.(clients := s.clients[id := c.(conn := conn, held := false, gen := c.gen + 1,
                                     chan := if c.held then c.chan else s.nextChan,
                                     stream := [jr] + kept, taken := 0,
                                     phantom := Replay(PeersExcept(s, id), kept) - PeersExcept(s, id))],
       kicked := if c.held then s.kicked else s.kicked + {c.conn},
       nextChan := if c.held then s.nextChan else s.nextChan + 1)
  }

  ghost predicate ResumeStep(s: HubState, id: Id, token: Token, conn: ConnId, reply: Reply, s': HubState) {
    if !ResumeMatches(s, id, token) then s' == s && reply == Refused(ERR_RESUME_REJECTED)
    else
      && s.clients[id].taken <= |s.clients[id].stream|
      && s' == ResumedSlot(s, id, conn)
      && reply == Seated(id, s'.clients[id].gen, s'.clients[id].chan)
  }

  ghost predicate ForwardStep(s: HubState, from: Id, msg: Routed, s': HubState, concurrent: bool) {
    match msg
    case BadDirect => SendStep(s, from, Error(ERR_BAD_FRAME), s', concurrent)
    case BadBroadcast => SendStep(s, from, Error(ERR_BAD_FRAME), s', concurrent)
    case ToOne(to, p) =>
      if to in s.clients then SendStep(s, to, Direct(from, to, p), s', concurrent)
      else SendStep(s, from, Error(ERR_UNKNOWN_PEER), s', concurrent)
    case ToAll(p) => BroadcastStep(s, Broadcast(from, p), from, s', concurrent)
  }

  /** The hub's goroutine returns, and kicks every connection that is left. */
  function Ended(s: HubState): HubState {
    s.(over := true, kicked := s.kicked + set x | x in s.clients :: s.clients[x].conn)
  }

  ghost predicate CloseStep(s: HubState, reason: string, s': HubState, concurrent: bool) {
    exists m :: BroadcastStep(s, SessionClosed(reason), 0, m, concurrent) && s' == Ended(m)
  }

  /** The command's own handler, before evictions are drained. */
  ghost predicate HandlerStep(s: HubState, cmd: Command, reply: Reply, s': HubState, concurrent: bool) {
    match cmd
    case Join(isCreate, conn, token) => JoinStep(s, isCreate, conn, token, reply, s', concurrent)
    case Leave(id, gen, unexpected) => reply == Silent && LeaveStep(s, id, gen, unexpected, s', concurrent)
    case Resume(id, token, conn) => ResumeStep(s, id, token, conn, reply, s')
    case GraceExpired(id, gen) => reply == Silent && ExpiryStep(s, id, gen, s', concurrent)
    case ClaimHost(id) => reply == Silent && s' == if id in s.clients then s.(host := id) else s
    case Forward(from, msg) => reply == Silent && ForwardStep(s, from, msg, s', concurrent)
    case Stats => reply == Silent && s' == s
    case Close(reason) => reply == Silent && CloseStep(s, reason, s', concurrent)
  }

  /** One turn of the hub's loop: the handler, then the drain unless the session ended. */
  ghost predicate CommandStep(s: HubState, cmd: Command, reply: Reply, removed: Drops, s': HubState, concurrent: bool) {
    !s.over && exists m :: HandlerStep(s, cmd, reply, m, concurrent) && DrainUnlessOver(m, removed, s', concurrent)
  }

  ghost predicate DrainUnlessOver(m: HubState, removed: Drops, s': HubState, concurrent: bool) {
    if m.over then removed == Start && s' == m else Drained(m, removed, s', concurrent)
  }

  // ----- Runs -----

  datatype Label =
    | Quiet                                              // connections use their channels
    | Did(cmd: Command, reply: Reply, removed: Drops)  // one command, with what it evicted

  ghost predicate DriftStep(s: HubState, s': HubState) {
    && s' == s.(clients := s'.clients)
    && s'.clients.Keys == s.clients.Keys
    && forall id :: id in s.clients ==> Drift(s.clients[id], s'.clients[id], true)
  }

  ghost predicate Next(s: HubState, l: Label, s': HubState) {
    match l
    case Quiet => DriftStep(s, s')
    case Did(cmd, reply, removed) =>
      // the id space is not exhausted; see IdsRunOut
      && (cmd.Join? ==> s.nextId + 1 < ID_SPACE)
      && CommandStep(s, cmd, reply, removed, s', true)
  }

  ghost predicate Takes(states: seq<HubState>, labels: seq<Label>, i: nat)
    requires |states| == |labels| + 1 && i < |labels|
  {
    Next(states[i], labels[i], states[i + 1])
  }

  ghost predicate Run(states: seq<HubState>, labels: seq<Label>) {
    && |states| == |labels| + 1
    && Init(states[0])
    && forall i {:trigger Takes(states, labels, i)} :: 0 <= i < |labels| ==> Takes(states, labels, i)
  }
}
