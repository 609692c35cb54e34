/** The replies that are neither notices nor forwarded frames: errors go to the sender and to nobody else,
    and everybody who keeps up is told that the session is closed before it is kicked. */
module HubReplies {
  import opened Wire
  import opened HubSpec
  import opened HubViews
  import opened HubLedger

  // ----- Frames for nobody -----

  const UNKNOWN := Error(ERR_UNKNOWN_PEER)

  /** How often a stream says that a peer is unknown. */
  function Unknowns(fs: seq<Frame>): nat {
    if fs == [] then 0 else Unknowns(fs[..|fs| - 1]) + if fs[|fs| - 1] == UNKNOWN then 1 else 0
  }

  lemma {:induction false} UnknownsLocal(fs: seq<Frame>, gs: seq<Frame>)
    requires fs <= gs && forall i :: |fs| <= i < |gs| ==> IsLocalReply(gs[i])
    ensures Unknowns(gs) == Unknowns(fs)
    decreases |gs|
  {
    if |gs| == |fs| {
      assert gs == fs;
    } else {
      UnknownsLocal(fs, gs[..|gs| - 1]);
    }
  }

  /** Still keeping up, the client has been told so `n` times more. */
  ghost predicate Told(c: Client, c': Client, n: nat) {
    !c'.evicting ==> !c.evicting && Unknowns(c'.stream) == Unknowns(c.stream) + n
  }

  lemma OfferTold(c: Client, f: Frame, c': Client, concurrent: bool)
    requires Queued(c, f, c', concurrent)
    ensures Told(c, c', if f == UNKNOWN then 1 else 0)
  {
    var d :| Drift(c, d, concurrent) && c' == Offered(d, f);
    UnknownsLocal(c.stream, d.stream);
    if !c'.evicting { assert c'.stream[..|d.stream|] == d.stream; }
  }

  ghost predicate AllTold(s: HubState, s': HubState) {
    forall x {:trigger ToldAt(s, s', x, 0)} :: x in s'.clients ==> ToldAt(s, s', x, 0)
  }

  ghost predicate ToldAt(s: HubState, s': HubState, x: Id, n: nat) {
    x in s.clients && x in s'.clients && Told(s.clients[x], s'.clients[x], n)
  }

  lemma BroadcastTold(s: HubState, f: Frame, except: Id, s': HubState, concurrent: bool)
    requires BroadcastStep(s, f, except, s', concurrent) && f != UNKNOWN
    ensures AllTold(s, s')
  {
    forall x | x in s'.clients ensures ToldAt(s, s', x, 0) {
      assert Fanned(s, f, except, s', x, concurrent);
      if x != except { OfferTold(s.clients[x], f, s'.clients[x], concurrent); }
    }
  }

  lemma SendTold(s: HubState, to: Id, f: Frame, s': HubState, concurrent: bool, x: Id)
    requires SendStep(s, to, f, s', concurrent) && x in s.clients && x in s'.clients
    ensures ToldAt(s, s', x, if x == to && f == UNKNOWN then 1 else 0)
  {
    if to in s.clients {
      assert Sent(s, f, to, s', x, concurrent);
      if x == to { OfferTold(s.clients[x], f, s'.clients[x], concurrent); }
    }
  }

  lemma RemoveTold(s: HubState, id: Id, s': HubState, concurrent: bool)
    requires RemoveStep(s, id, s', concurrent)
    ensures AllTold(s, s')
  {
    if id in s.clients {
      var w := Without(s, id);
      if |s.clients - {id}| != 0 {
        BroadcastTold(w, ParticipantLeft(id), 0, s', concurrent);
        forall x | x in s'.clients ensures ToldAt(s, s', x, 0) { assert ToldAt(w, s', x, 0); }
      }
    }
  }

  lemma {:induction false} DrainTold(s: HubState, t: Drops, s': HubState, concurrent: bool)
    requires DrainTrace(s, t, s', concurrent)
    ensures AllTold(s, s')
  {
    if t.Drop? {
      DrainTold(s, t.before, t.at, concurrent);
      RemoveTold(PopEvict(t.at), t.id, s', concurrent);
      forall x | x in s'.clients ensures ToldAt(s, s', x, 0) {
        assert ToldAt(PopEvict(t.at), s', x, 0) && ToldAt(s, t.at, x, 0);
      }
    }
  }

  /** The command forwards a frame to somebody who is not there. */
  predicate Misses(s: HubState, cmd: Command) {
    cmd.Forward? && cmd.msg.ToOne? && cmd.msg.to !in s.clients
  }

  lemma ForwardTold(s: HubState, from: Id, msg: Routed, m: HubState, concurrent: bool, x: Id)
    requires ForwardStep(s, from, msg, m, concurrent) && x in s.clients && x in m.clients
    ensures ToldAt(s, m, x, if Misses(s, Forward(from, msg)) && x == from then 1 else 0)
  {
    match msg {
      case BadDirect => SendTold(s, from, Error(ERR_BAD_FRAME), m, concurrent, x);
      case BadBroadcast => SendTold(s, from, Error(ERR_BAD_FRAME), m, concurrent, x);
      case ToOne(to, p) =>
        if to in s.clients {
          SendTold(s, to, Direct(from, to, p), m, concurrent, x);
        } else {
          SendTold(s, from, UNKNOWN, m, concurrent, x);
        }
      case ToAll(p) =>
        BroadcastTold(s, Broadcast(from, p), from, m, concurrent);
        assert ToldAt(s, m, x, 0);
    }
  }

  lemma JoinTold(s: HubState, isCreate: bool, conn: ConnId, token: Token, reply: Reply, m: HubState, concurrent: bool, x: Id)
    requires JoinStep(s, isCreate, conn, token, reply, m, concurrent) && x in s.clients && x in m.clients && x != s.nextId
    ensures ToldAt(s, m, x, 0)
  {
    if |s.clients| < s.max {
      var r := Registered(s, isCreate, conn, token);
      BroadcastTold(r, ParticipantJoined(s.nextId), s.nextId, m, concurrent);
      assert ToldAt(r, m, x, 0);
    }
  }

  lemma HandlerTold(s: HubState, cmd: Command, reply: Reply, m: HubState, concurrent: bool, x: Id)
    requires HandlerStep(s, cmd, reply, m, concurrent) && !m.over && x in s.clients && x in m.clients
    requires m.clients[x].gen == s.clients[x].gen && x != s.nextId
    ensures ToldAt(s, m, x, if Misses(s, cmd) && x == cmd.from then 1 else 0)
  {
    match cmd {
      case Join(isCreate, conn, token) => JoinTold(s, isCreate, conn, token, reply, m, concurrent, x);
      case Leave(id, gen, unexpected) =>
        if LeaveMatches(s, id, gen) && !Holds(s, unexpected) { RemoveTold(s, id, m, concurrent); assert ToldAt(s, m, x, 0); }
      case GraceExpired(id, gen) =>
        if ExpiryMatches(s, id, gen) { RemoveTold(s, id, m, concurrent); assert ToldAt(s, m, x, 0); }
      case Forward(from, msg) => ForwardTold(s, from, msg, m, concurrent, x);
      case _ =>
    }
  }

  /** Whoever stays on its connection is told of an unknown peer exactly when it is the one whose frame was
      for somebody who is not there. */
  lemma UnknownPeerExactly(s: HubState, cmd: Command, reply: Reply, t: Drops, s': HubState, concurrent: bool, x: Id)
    requires Boundary(s) && CommandStep(s, cmd, reply, t, s', concurrent) && !s'.over
    requires x in s.clients && x in s'.clients && s'.clients[x].gen == s.clients[x].gen && (cmd.Join? ==> s.nextId + 1 < ID_SPACE)
    ensures Unknowns(s'.clients[x].stream) == Unknowns(s.clients[x].stream) + if Misses(s, cmd) && x == cmd.from then 1 else 0
  {
    var m :| HandlerStep(s, cmd, reply, m, concurrent) && DrainUnlessOver(m, t, s', concurrent);
    HandlerKeeps(s, cmd, reply, m, concurrent);
    DrainTold(m, t, s', concurrent);
    assert ToldAt(m, s', x, 0);
    DrainBook(m, t, s', concurrent);
    assert x in Kept(s').seats && Kept(s').seats[x] == Kept(m).seats[x];
    CommandKeeps(s, cmd, reply, t, s', concurrent);
    assert x !in s'.evict;
    HandlerTold(s, cmd, reply, m, concurrent, x);
  }

  // ----- Malformed frames, and the end -----

  /** The handler's last word to `x`, unless it overflowed. */
  ghost predicate Ends(m: HubState, x: Id, f: Frame)
    requires x in m.clients
  {
    m.clients[x].evicting || (m.clients[x].stream != [] && m.clients[x].stream[|m.clients[x].stream| - 1] == f)
  }

  lemma SentEnds(s: HubState, to: Id, f: Frame, m: HubState, concurrent: bool)
    requires SendStep(s, to, f, m, concurrent) && to in s.clients
    ensures to in m.clients && Ends(m, to, f) && |m.clients[to].stream| >= |s.clients[to].stream|
    ensures !m.clients[to].evicting ==> |m.clients[to].stream| > |s.clients[to].stream|
  {
    assert Sent(s, f, to, m, to, concurrent);
  }

  predicate Malformed(cmd: Command) {
    cmd.Forward? && (cmd.msg.BadDirect? || cmd.msg.BadBroadcast?)
  }

  /** The sender of a malformed frame is told so, if it keeps up. */
  lemma MalformedAnswered(s: HubState, cmd: Command, reply: Reply, t: Drops, s': HubState, concurrent: bool)
    requires Boundary(s) && CommandStep(s, cmd, reply, t, s', concurrent) && !s'.over && Malformed(cmd)
    requires cmd.from in s.clients && cmd.from in s'.clients
    ensures
      var fs, fs' := s.clients[cmd.from].stream, s'.clients[cmd.from].stream;
      fs <= fs' && Error(ERR_BAD_FRAME) in fs'[|fs|..]
  {
    var x := cmd.from;
    var m :| HandlerStep(s, cmd, reply, m, concurrent) && DrainUnlessOver(m, t, s', concurrent);
    SentEnds(s, x, Error(ERR_BAD_FRAME), m, concurrent);
    SendGrows(s, x, Error(ERR_BAD_FRAME), m, concurrent);
    HandlerKeeps(s, cmd, reply, m, concurrent);
    DrainGrows(m, t, s', concurrent);
    DrainTold(m, t, s', concurrent);
    assert Grows(s, m, x) && Grows(m, s', x) && ToldAt(m, s', x, 0);
    CommandKeeps(s, cmd, reply, t, s', concurrent);
    assert x !in s'.evict;
    LastInside(s.clients[x].stream, m.clients[x].stream, s'.clients[x].stream, Error(ERR_BAD_FRAME));
  }

  lemma LastInside(fs: seq<Frame>, gs: seq<Frame>, hs: seq<Frame>, f: Frame)
    requires fs <= gs <= hs && |gs| > |fs| && gs[|gs| - 1] == f
    ensures f in hs[|fs|..]
  {
    assert hs[|fs|..][|gs| - 1 - |fs|] == f;
  }

  lemma QueuedEnds(c: Client, f: Frame, c': Client, concurrent: bool)
    requires Queued(c, f, c', concurrent)
    ensures c'.evicting || (c'.stream != [] && c'.stream[|c'.stream| - 1] == f)
  {
  }

  /** A close ends the session, and everybody who keeps up has the reason as its last frame. */
  lemma CloseTellsAll(s: HubState, reason: string, reply: Reply, t: Drops, s': HubState, concurrent: bool)
    requires Boundary(s) && CommandStep(s, Close(reason), reply, t, s', concurrent)
    ensures s'.over && t == Start && s'.clients.Keys == s.clients.Keys
    ensures forall x :: x in s'.clients ==> Ends(s', x, SessionClosed(reason)) && s'.clients[x].conn in s'.kicked
  {
    var m :| HandlerStep(s, Close(reason), reply, m, concurrent) && DrainUnlessOver(m, t, s', concurrent);
    ClosedEnds(s, reason, m, concurrent);
    NothingDrained(m, t, s', concurrent);
  }

  lemma NothingDrained(m: HubState, t: Drops, s': HubState, concurrent: bool)
    requires m.over && DrainUnlessOver(m, t, s', concurrent)
    ensures t == Start && s' == m
  {
  }

  lemma ClosedEnds(s: HubState, reason: string, m: HubState, concurrent: bool)
    requires CloseStep(s, reason, m, concurrent) && forall x :: x in s.clients ==> 1 <= x
    ensures m.over && m.clients.Keys == s.clients.Keys
    ensures forall x :: x in m.clients ==> Ends(m, x, SessionClosed(reason)) && m.clients[x].conn in m.kicked
  {
    var f := SessionClosed(reason);
    var b :| BroadcastStep(s, f, 0, b, concurrent) && m == Ended(b);
    forall x | x in m.clients ensures Ends(m, x, f) {
      assert Fanned(s, f, 0, b, x, concurrent);
      QueuedEnds(s.clients[x], f, b.clients[x], concurrent);
    }
  }
}
