/** A whole session: the relay's membership and queues, and every end that ever joined.

    What an end writes goes to its outbox in order; the relay routes each outbox in order, into
    the stream of every recipient that is a member at that moment. An end's read goroutine, its
    routing goroutine and the callers that seal frames take steps independently, and a step is
    what the source does under one lock: a key message is checked in one step and committed in
    another. The relay does not ask whether a sender is still a member, and streams lose nothing. */
module Session {
  import opened Wire
  import opened Ends

  datatype Out = ToOne(to: Id, payload: Payload) | ToAll(key: GroupKey)

  /** One end with its connection: what the relay has put into its queue so far, how much of that
      it has read, what it has written that the relay has not routed, and the keys of frames
      that callers have sealed but not yet written. */
  datatype Node = Node(end: End, stream: seq<Frame>, read: nat, outbox: seq<Out>, sealed: seq<GroupKey>)

  datatype Sys = Sys(
    members: set<Id>,
    nextId: Id,
    relayHost: Id,
    nodes: map<Id, Node>,
    minted: nat,
    nonce: nat)

  const FIRST: Id := 1

  function Start(): Sys {
    Sys({FIRST}, FIRST + 1, FIRST, map[FIRST := Node(Creator(FIRST, 0), [], 0, [], [])], 1, 0)
  }

  // ----- The relay -----

  function Push(n: Node, f: Frame): Node {
    n.(stream := n.stream + [f])
  }

  /** Every member but `except` gets `f`. */
  function PushAll(s: Sys, f: Frame, except: Id): map<Id, Node> {
    map x | x in s.nodes :: if x in s.members && x != except then Push(s.nodes[x], f) else s.nodes[x]
  }

  function Join(s: Sys, observer: bool): Sys {
    var x := s.nextId;
    var told := PushAll(s, ParticipantJoined(x), x);
    var n := Node(Joiner(x, s.relayHost, s.nonce), [], 0, [ToOne(s.relayHost, Pake1(s.nonce, observer))], []);
    s.(members := s.members + {x}, nextId := x + 1, nodes := told[x := n], nonce := s.nonce + 1)
  }

  function Leave(s: Sys, x: Id): Sys {
    var t := s.(members := s.members - {x});
    t.(nodes := PushAll(t, ParticipantLeft(x), 0))
  }

  function Route(s: Sys, x: Id): Sys
    requires x in s.nodes && s.nodes[x].outbox != []
  {
    var out := s.nodes[x].outbox[0];
    var t := s.(nodes := s.nodes[x := s.nodes[x].(outbox := s.nodes[x].outbox[1..])]);
    match out
    case ToOne(to, p) =>
      if to in t.members && to in t.nodes then t.(nodes := t.nodes[to := Push(t.nodes[to], Direct(x, to, p))])
      else t
    case ToAll(key) => t.(nodes := PushAll(t, Broadcast(x, Sealed(key, x)), x))
  }

  // ----- The ends -----

  function WithEnd(s: Sys, x: Id, e: End): Sys
    requires x in s.nodes
  {
    s.(nodes := s.nodes[x := s.nodes[x].(end := e)])
  }

  predicate CanRead(s: Sys, x: Id) {
    x in s.nodes && s.nodes[x].read < |s.nodes[x].stream| && Idle(s.nodes[x].end) && !s.nodes[x].end.v.failed
  }

  function NextFrame(s: Sys, x: Id): Frame
    requires CanRead(s, x)
  {
    s.nodes[x].stream[s.nodes[x].read]
  }

  function Read(s: Sys, x: Id, role: Role, outs: seq<(Id, Payload)>): Sys
    requires CanRead(s, x)
  {
    var n, f := s.nodes[x], NextFrame(s, x);
    s.(nodes := s.nodes[x := n.(read := n.read + 1, end := Receive(n.end, f, s.minted, s.nonce, role, outs))],
       minted := if Rotates(n.end, f) then s.minted + 1 else s.minted,
       nonce := s.nonce + 1)
  }

  function Write(s: Sys, x: Id): Sys
    requires x in s.nodes && s.nodes[x].end.writing != []
  {
    var n := s.nodes[x];
    var (to, p) := n.end.writing[0];
    s.(nodes := s.nodes[x := n.(end := n.end.(writing := n.end.writing[1..]), outbox := n.outbox + [ToOne(to, p)])])
  }

  function Seal(s: Sys, x: Id): Sys
    requires x in s.nodes
  {
    s.(nodes := s.nodes[x := s.nodes[x].(sealed := s.nodes[x].sealed + [s.nodes[x].end.v.groupKey])])
  }

  /** A sealed frame is written, to everybody or to one end, in any order. */
  function Send(s: Sys, x: Id, i: nat, to: Option<Id>): Sys
    requires x in s.nodes && i < |s.nodes[x].sealed|
  {
    var n := s.nodes[x];
    var key := n.sealed[i];
    s.(nodes := s.nodes[x := n.(sealed := n.sealed[..i] + n.sealed[i + 1..],
                                outbox := n.outbox + [if to == None then ToAll(key) else ToOne(to.value, Sealed(key, x))])])
  }

  /** The recorded first flight is written. */
  function Fly(s: Sys, x: Id): Sys
    requires x in s.nodes && s.nodes[x].end.flight.Some?
  {
    var n := s.nodes[x];
    var (to, nonce) := n.end.flight.value;
    s.(nodes := s.nodes[x := n.(end := n.end.(flight := None), outbox := n.outbox + [ToOne(to, RekeyPake1(nonce))])])
  }

  // ----- Steps -----

  datatype Step =
    | DoJoin(observer: bool)
    | DoLeave(x: Id)
    | DoClaim(x: Id)
    | DoRoute(x: Id)
    | DoRead(x: Id, role: Role, outs: seq<(Id, Payload)>)
    | DoWrite(x: Id)
    | DoSwap(x: Id)
    | DoDerive(x: Id)
    | DoCommit(x: Id)
    | DoSeal(x: Id)
    | DoSend(x: Id, i: nat, to: Option<Id>)
    | DoPromote(x: Id)
    | DoRotate(x: Id)
    | DoFollow(x: Id, host: Id)
    | DoAsk(x: Id)
    | DoFly(x: Id)

  /** The routing goroutine has seen the host's departure and migrates. */
  predicate Bereft(e: End) {
    e.v.keyed && e.v.role != ROLE_HOST && e.v.hostId in e.hist.seenLeft && e.flight == None
  }

  ghost predicate Enabled(s: Sys, a: Step) {
    match a
    case DoJoin(_) => true
    case DoLeave(x) => x in s.members
    case DoClaim(x) => x in s.members
    case DoRoute(x) => x in s.nodes && s.nodes[x].outbox != []
    case DoRead(x, _, outs) =>
      && CanRead(s, x)
      && (Rotates(s.nodes[x].end, NextFrame(s, x)) ==>
            Covers(outs, s.nodes[x].end.pairwise - {NextFrame(s, x).who}, s.minted))
    case DoWrite(x) => x in s.nodes && s.nodes[x].end.writing != []
    case DoSwap(x) => x in s.nodes && s.nodes[x].end.writing == [] && s.nodes[x].end.swapTo.Some?
    case DoDerive(x) => x in s.nodes && s.nodes[x].end.commit.Some? && s.nodes[x].end.commit.value.Derive?
    case DoCommit(x) => x in s.nodes && s.nodes[x].end.commit.Some? && !s.nodes[x].end.commit.value.Derive?
    case DoSeal(x) => x in s.nodes && s.nodes[x].end.v.keyed
    case DoSend(x, i, to) => x in s.nodes && i < |s.nodes[x].sealed| && (to.Some? ==> to.value < s.nextId)
    case DoPromote(x) => x in s.nodes && Bereft(s.nodes[x].end)
    case DoRotate(x) => x in s.nodes && s.nodes[x].end.v.keyed && s.nodes[x].end.flight == None
    case DoFollow(x, host) => x in s.nodes && Bereft(s.nodes[x].end) && host != x && host < s.nextId
    case DoAsk(x) =>
      && x in s.nodes && MayAsk(s.nodes[x].end) && s.nodes[x].end.flight == None
      && (s.nodes[x].end.v.hostId in s.nodes[x].end.hist.asked ==> s.nodes[x].end.v.hostId in s.nodes[x].end.hist.seenLeft)
    case DoFly(x) => x in s.nodes && s.nodes[x].end.flight.Some?
  }

  function Next(s: Sys, a: Step): Sys
    requires Enabled(s, a)
  {
    match a
    case DoJoin(observer) => Join(s, observer)
    case DoLeave(x) => Leave(s, x)
    case DoClaim(x) => s.(relayHost := x)
    case DoRoute(x) => Route(s, x)
    case DoRead(x, role, outs) => Read(s, x, role, outs)
    case DoWrite(x) => Write(s, x)
    case DoSwap(x) => WithEnd(s, x, Swapped(s.nodes[x].end))
    case DoDerive(x) => WithEnd(s, x, Derived(s.nodes[x].end))
    case DoCommit(x) => WithEnd(s, x, Committed(s.nodes[x].end))
    case DoSeal(x) => Seal(s, x)
    case DoSend(x, i, to) => Send(s, x, i, to)
    case DoPromote(x) => WithEnd(s, x, Promoted(s.nodes[x].end))
    case DoRotate(x) => WithEnd(s, x, RotatedForMigration(s.nodes[x].end, s.minted)).(minted := s.minted + 1)
    case DoFollow(x, host) => WithEnd(s, x, Followed(s.nodes[x].end, host))
    case DoAsk(x) => WithEnd(s, x, Asked(s.nodes[x].end, s.nonce)).(nonce := s.nonce + 1)
    case DoFly(x) => Fly(s, x)
  }

  ghost predicate Takes(ss: seq<Sys>, steps: seq<Step>, i: nat)
    requires |ss| == |steps| + 1 && i < |steps|
  {
    Enabled(ss[i], steps[i]) && ss[i + 1] == Next(ss[i], steps[i])
  }

  /** `ss` are the states of a session that takes `steps`. */
  ghost predicate Run(ss: seq<Sys>, steps: seq<Step>) {
    && |ss| == |steps| + 1
    && ss[0] == Start()
    && forall i {:trigger Takes(ss, steps, i)} :: 0 <= i < |steps| ==> Takes(ss, steps, i)
  }
}
