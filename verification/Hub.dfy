/** The hub itself: an object whose methods update the session state in place, each proved to
    take one step of the specification. */
module Relay {
  import opened Wire
  import opened HubSpec

  // ----- Building up a fan-out one client at a time -----

  /** A fan-out from `s` that has visited the clients in `done` and stands at `m`. */
  ghost predicate Partial(s: HubState, f: Frame, except: Id, done: set<Id>, m: HubState, concurrent: bool) {
    && SameFrame(s, m)
    && m.clients.Keys == s.clients.Keys
    && (forall id {:trigger Fanned(s, f, except, m, id, concurrent)} ::
          id in s.clients && id in done ==> Fanned(s, f, except, m, id, concurrent))
    && (forall id {:trigger Untouched(s, m, id)} :: id in s.clients && id !in done ==> Untouched(s, m, id))
    && EvictGrew(s, m)
  }

  predicate Untouched(s: HubState, m: HubState, id: Id) {
    id in s.clients && id in m.clients && m.clients[id] == s.clients[id]
  }

  ghost predicate Splits(all: set<Id>, done: set<Id>, todo: set<Id>) {
    all == done + todo && done !! todo
  }

  lemma SplitsMore(all: set<Id>, done: set<Id>, todo: set<Id>, id: Id)
    requires Splits(all, done, todo) && id in todo
    ensures Splits(all, done + {id}, todo - {id}) && id in all && id !in done
  {
  }

  lemma PartialStart(s: HubState, f: Frame, except: Id, concurrent: bool)
    ensures Partial(s, f, except, {}, s, concurrent)
  {
    assert KickedConns(s, s) == {};
    assert s.evict[|s.evict|..] == [];
  }

  lemma PartialSkip(s: HubState, f: Frame, done: set<Id>, m: HubState, except: Id, concurrent: bool)
    requires Partial(s, f, except, done, m, concurrent) && except !in done
    ensures Partial(s, f, except, done + {except}, m, concurrent)
  {
    forall x | x in s.clients && x in done + {except} ensures Fanned(s, f, except, m, x, concurrent) {
      assert x !in done ==> Untouched(s, m, x);
    }
  }

  lemma PartialAll(s: HubState, f: Frame, except: Id, done: set<Id>, m: HubState, concurrent: bool)
    requires Partial(s, f, except, done, m, concurrent) && done == s.clients.Keys
    ensures BroadcastStep(s, f, except, m, concurrent)
  {
  }

  lemma PartialMore(s: HubState, f: Frame, except: Id, done: set<Id>, m: HubState, id: Id, m': HubState, concurrent: bool)
    requires Partial(s, f, except, done, m, concurrent) && SendStep(m, id, f, m', concurrent)
    requires id in s.clients && id !in done && id != except
    ensures Partial(s, f, except, done + {id}, m', concurrent)
  {
    assert Untouched(s, m, id);
    forall x | x in s.clients && x !in done + {id} ensures Untouched(s, m', x) {
      assert Sent(m, f, id, m', x, concurrent) && Untouched(s, m, x);
    }
    forall x | x in s.clients ensures x != id ==> m'.clients[x] == m.clients[x] {
      assert Sent(m, f, id, m', x, concurrent);
    }
    forall x | x in s.clients && x in done + {id} ensures Fanned(s, f, except, m', x, concurrent) {
      assert Sent(m, f, id, m', x, concurrent);
      if x in done { assert Fanned(s, f, except, m, x, concurrent); }
    }
    EvictGrewMore(s, m, id, m');
  }

  /** Extending the evict list by what happens to one so far untouched client. */
  lemma EvictGrewMore(s: HubState, m: HubState, id: Id, m': HubState)
    requires EvictGrew(s, m) && EvictGrew(m, m')
    requires s.clients.Keys == m.clients.Keys == m'.clients.Keys
    requires id in s.clients && m.clients[id] == s.clients[id]
    requires forall x :: x in s.clients && x != id ==> m'.clients[x] == m.clients[x]
    ensures EvictGrew(s, m')
  {
    var n, k := |s.evict|, |m.evict|;
    forall x ensures NewlyEvicting(s, m', x) <==> NewlyEvicting(s, m, x) || NewlyEvicting(m, m', x) {
    }
    forall x | NewlyEvicting(m, m', x) ensures x == id {
    }
    assert m'.evict[n..] == m.evict[n..] + m'.evict[k..];
    forall i | n <= i < |m'.evict| ensures NewlyEvicting(s, m', m'.evict[i]) {
      if i < k { assert NewlyEvicting(s, m, m.evict[i]); } else { assert NewlyEvicting(m, m', m'.evict[i]); }
    }
    forall i, j | n <= i < j < |m'.evict| ensures m'.evict[i] != m'.evict[j] {
      if i < k <= j {
        assert NewlyEvicting(s, m, m.evict[i]) && NewlyEvicting(m, m', m'.evict[j]);
      }
    }
    assert KickedConns(s, m') == KickedConns(s, m) + KickedConns(m, m') by {
      forall x | x in s.clients ensures s.clients[x].conn == m.clients[x].conn || !NewlyEvicting(m, m', x) {
      }
    }
  }

  lemma OfferedChannel(c: Client, d: Client, f: Frame, concurrent: bool)
    requires ChannelOk(c) && Drift(c, d, concurrent)
    ensures ChannelOk(Offered(d, f))
  {
  }

  class Hub {
    const max: nat
    const grace: nat
    /** Whether connections use their channels while a command runs. */
    const concurrent: bool

    var clients: map<Id, Client>
    var nextId: Id
    var host: Id
    var evict: seq<Id>
    var kicked: set<ConnId>
    var nextChan: nat
    var over: bool

    ghost function State(): HubState
      reads this
    {
      HubState(max, grace, clients, nextId, host, evict, kicked, nextChan, over)
    }

    ghost predicate Valid()
      reads this
    {
      forall id :: id in clients ==> ChannelOk(clients[id])
    }

    constructor (max: nat, grace: nat, concurrent: bool)
      ensures Init(State()) && Valid()
      ensures this.max == max && this.grace == grace && this.concurrent == concurrent
    {
      this.max, this.grace, this.concurrent := max, grace, concurrent;
      clients, nextId, host, evict := map[], HOST_ID, HOST_ID, [];
      kicked, nextChan, over := {}, 0, false;
    }

    /** The connection's goroutines run for a while: its writer receives some frames, and its
        read loop may have queued replies of its own. */
    method Await(c: Client) returns (d: Client)
      requires ChannelOk(c)
      ensures Drift(c, d, concurrent) && ChannelOk(d)
    {
      d := c;
      if !c.held && concurrent {
        var received: nat :| received <= |c.stream| - c.taken;
        var pings: nat :| pings <= SEND_BUFFER - (|c.stream| - c.taken - received);
        d := c.(stream := c.stream + seq(pings, _ => Pong), taken := c.taken + received);
      }
    }

    method Queue(id: Id, f: Frame)
      requires Valid() && id in clients
      modifies this`clients, this`evict, this`kicked
      ensures Valid() && SendStep(old(State()), id, f, State(), concurrent)
    {
      ghost var s := State();
      var c := Await(clients[id]);
      ghost var d := c;
      if !c.evicting {
        if |c.stream| - c.taken < SEND_BUFFER {
          c := c.(stream := c.stream + [f]);
        } else {
          c := c.(evicting := true);
          if !c.held {
            kicked := kicked + {c.conn};
          }
          evict := evict + [id];
        }
      }
      clients := clients[id := c];
      assert c == Offered(d, f);
      OfferedChannel(s.clients[id], d, f, concurrent);
      QueueStep(s, id, f, d, State());
    }

    lemma QueueStep(s: HubState, id: Id, f: Frame, d: Client, s': HubState)
      requires id in s.clients && Drift(s.clients[id], d, concurrent)
      requires var c := Offered(d, f);
        var marked := c.evicting && !d.evicting;
        s' == s.(clients := s.clients[id := c],
                 evict := if marked then s.evict + [id] else s.evict,
                 kicked := if marked && !d.held then s.kicked + {d.conn} else s.kicked)
      ensures SendStep(s, id, f, s', concurrent)
    {
      forall x | x in s.clients ensures Sent(s, f, id, s', x, concurrent) {
      }
      forall x ensures NewlyEvicting(s, s', x) <==> x == id && s'.clients[id].evicting && !d.evicting {
      }
      assert s'.evict[|s.evict|..] == if s'.clients[id].evicting && !d.evicting then [id] else [];
    }

    method SendTo(id: Id, f: Frame)
      requires Valid()
      modifies this`clients, this`evict, this`kicked
      ensures Valid() && SendStep(old(State()), id, f, State(), concurrent)
    {
      if id in clients {
        Queue(id, f);
      }
    }

    /** One iteration of the fan-out loop. */
    method Visit(id: Id, f: Frame, except: Id, ghost s: HubState, ghost done: set<Id>)
      requires Valid() && id in s.clients && id !in done && Partial(s, f, except, done, State(), concurrent)
      modifies this`clients, this`evict, this`kicked
      ensures Valid() && Partial(s, f, except, done + {id}, State(), concurrent)
    {
      if id == except {
        PartialSkip(s, f, done, State(), except, concurrent);
      } else {
        ghost var m := State();
        Queue(id, f);
        PartialMore(s, f, except, done, m, id, State(), concurrent);
      }
    }

    method BroadcastFrame(f: Frame, except: Id)
      requires Valid()
      modifies this`clients, this`evict, this`kicked
      ensures Valid() && BroadcastStep(old(State()), f, except, State(), concurrent)
    {
      ghost var s := State();
      var todo := clients.Keys;
      ghost var done: set<Id> := {};
      PartialStart(s, f, except, concurrent);
      while todo != {}
        invariant Valid() && Splits(s.clients.Keys, done, todo)
        invariant Partial(s, f, except, done, State(), concurrent)
        decreases todo
      {
        var id :| id in todo;
        SplitsMore(s.clients.Keys, done, todo, id);
        todo := todo - {id};
        Visit(id, f, except, s, done);
        done := done + {id};
      }
      PartialAll(s, f, except, done, State(), concurrent);
    }

    method RemoveParticipant(id: Id) returns (ended: bool)
      requires Valid()
      modifies this`clients, this`evict, this`kicked, this`over
      ensures Valid() && RemoveStep(old(State()), id, State(), concurrent)
      ensures over == (old(over) || ended)
      ensures id in old(clients) ==> clients.Keys == old(clients.Keys) - {id}
    {
      if id !in clients {
        return false;
      }
      var c := clients[id];
      clients := clients - {id};
      kicked := kicked + {c.conn};
      if |clients| == 0 {
        over := true;
        return true;
      }
      BroadcastFrame(ParticipantLeft(id), 0);
      return false;
    }

    method DrainEvictions() returns (ended: bool, ghost t: Drops)
      requires Valid() && !over
      modifies this`clients, this`evict, this`kicked, this`over
      ensures Valid() && Drained(old(State()), t, State(), concurrent)
      ensures ended == over
    {
      t := Start;
      while |evict| > 0
        invariant Valid() && !over && DrainTrace(old(State()), t, State(), concurrent)
        decreases |clients|, |evict|
      {
        ghost var m := State();
        var id := evict[0];
        evict := evict[1..];
        var empty := RemoveParticipant(id);
        t := Drop(t, m, id);
        if empty {
          return true, t;
        }
      }
      return false, t;
    }

    method PeerSet(id: Id) returns (peers: set<Id>)
      ensures peers == PeersExcept(State(), id)
    {
      peers := {};
      var todo := clients.Keys;
      while todo != {}
        invariant todo <= clients.Keys && peers == clients.Keys - todo - {id}
        decreases |todo|
      {
        var pid :| pid in todo;
        todo := todo - {pid};
        if pid != id {
          peers := peers + {pid};
        }
      }
    }

    method HandleJoin(isCreate: bool, conn: ConnId, token: Token) returns (reply: Reply)
      requires Valid()
      modifies this
      ensures Valid() && JoinStep(old(State()), isCreate, conn, token, reply, State(), concurrent)
    {
      if |clients| >= max {
        return Refused(ERR_SESSION_FULL);
      }
      var id := nextId;
      var peers := PeerSet(id);
      var hello := if isCreate then SessionCreated(id, token) else JoinResult(id, peers, host, token);
      nextId := Successor(id);
      var chan := nextChan;
      nextChan := nextChan + 1;
      clients := clients[id := Client(conn, token, false, 1, chan, [hello], 0, false, {})];
      assert State() == Registered(old(State()), isCreate, conn, token);
      BroadcastFrame(ParticipantJoined(id), id);
      return Seated(id, 1, chan);
    }

    method HoldSlot(id: Id)
      requires Valid() && id in clients
      modifies this`clients, this`nextChan
      ensures Valid() && State() == HeldSlot(old(State()), id)
    {
      var c := clients[id];
      clients := clients[id := c.(held := true, gen := c.gen + 1, chan := nextChan, stream := [], taken := 0, phantom := {})];
      nextChan := nextChan + 1;
    }

    method HandleLeave(id: Id, gen: nat, unexpected: bool) returns (ended: bool)
      requires Valid()
      modifies this
      ensures Valid() && LeaveStep(old(State()), id, gen, unexpected, State(), concurrent)
      ensures over == (old(over) || ended)
    {
      if id !in clients || clients[id].held || clients[id].gen != gen {
        return false;
      }
      if unexpected && grace > 0 {
        HoldSlot(id);
        return false;
      }
      ended := RemoveParticipant(id);
    }

    method HandleGraceExpired(id: Id, gen: nat) returns (ended: bool)
      requires Valid()
      modifies this
      ensures Valid() && ExpiryStep(old(State()), id, gen, State(), concurrent)
      ensures over == (old(over) || ended)
    {
      if id !in clients || !clients[id].held || clients[id].gen != gen {
        return false;
      }
      ended := RemoveParticipant(id);
    }

    /** Empties a channel without blocking. */
    method DrainChan(c: Client) returns (fs: seq<Frame>)
      requires c.taken <= |c.stream|
      ensures fs == c.stream[c.taken..]
    {
      fs := [];
      var taken := c.taken;
      while taken < |c.stream|
        invariant c.taken <= taken <= |c.stream| && fs == c.stream[c.taken..taken]
      {
        fs := fs + [c.stream[taken]];
        taken := taken + 1;
      }
    }

    method HandleResume(id: Id, token: Token, conn: ConnId) returns (reply: Reply)
      requires Valid()
      modifies this
      ensures Valid() && ResumeStep(old(State()), id, token, conn, reply, State())
    {
      if id !in clients || clients[id].token != token {
        return Refused(ERR_RESUME_REJECTED);
      }
      var c := clients[id];
      var peers := PeerSet(id);
      var jr := JoinResult(id, peers, host, c.token);
      var buffered: seq<Frame> := [];
      var chan := c.chan;
      if c.held {
        buffered := DrainChan(c);
      } else {
        kicked := kicked + {c.conn};
        chan := nextChan;
        nextChan := nextChan + 1;
      }
      var out := [jr];
      var i := 0;
      while i < |buffered|
        invariant 0 <= i <= |buffered|
        invariant out == [jr] + buffered[..Min(i, SEND_BUFFER - 1)]
      {
        if |out| < SEND_BUFFER {
          out := out + [buffered[i]];
        }
        i := i + 1;
      }
      assert out == [jr] + KeptFrames(c);
      clients := clients[id := c.(conn := conn, held := false, gen := c.gen + 1, chan := chan,
                                  stream := out, taken := 0,
                                  phantom := Replay(peers, out[1..]) - peers)];
      assert out[1..] == KeptFrames(c);
      return Seated(id, c.gen + 1, chan);
    }

    method HandleClaimHost(id: Id)
      modifies this`host
      ensures State() == if id in clients then old(State()).(host := id) else old(State())
    {
      if id in clients {
        host := id;
      }
    }

    method HandleClose(reason: string)
      requires Valid()
      modifies this
      ensures Valid() && CloseStep(old(State()), reason, State(), concurrent)
    {
      BroadcastFrame(SessionClosed(reason), 0);
      Shutdown();
    }

    /** Kicks every connection that is left. */
    method Shutdown()
      modifies this`kicked, this`over
      ensures State() == Ended(old(State()))
    {
      var todo := clients.Keys;
      while todo != {}
        invariant todo <= clients.Keys
        invariant kicked == old(kicked) + set x | x in clients && x !in todo :: clients[x].conn
        decreases |todo|
      {
        var x :| x in todo;
        todo := todo - {x};
        kicked := kicked + {clients[x].conn};
      }
      over := true;
    }

    method Route(from: Id, msg: Routed)
      requires Valid()
      modifies this`clients, this`evict, this`kicked
      ensures Valid() && ForwardStep(old(State()), from, msg, State(), concurrent)
    {
      match msg {
        case BadDirect => SendTo(from, Error(ERR_BAD_FRAME));
        case BadBroadcast => SendTo(from, Error(ERR_BAD_FRAME));
        case ToOne(to, payload) =>
          if to !in clients {
            SendTo(from, Error(ERR_UNKNOWN_PEER));
          } else {
            SendTo(to, Direct(from, to, payload));
          }
        case ToAll(payload) => BroadcastFrame(Broadcast(from, payload), from);
      }
    }

    /** One turn of the hub's loop. */
    method Handle(cmd: Command) returns (reply: Reply, ghost t: Drops)
      requires Valid() && !over
      modifies this
      ensures Valid() && CommandStep(old(State()), cmd, reply, t, State(), concurrent)
    {
      reply, t := Silent, Start;
      var ended := false;
      match cmd {
        case Join(isCreate, conn, token) => reply := HandleJoin(isCreate, conn, token);
        case Leave(id, gen, unexpected) => ended := HandleLeave(id, gen, unexpected);
        case Resume(id, token, conn) => reply := HandleResume(id, token, conn);
        case GraceExpired(id, gen) => ended := HandleGraceExpired(id, gen);
        case ClaimHost(id) => HandleClaimHost(id);
        case Forward(from, msg) => Route(from, msg);
        case Stats =>
        case Close(reason) => HandleClose(reason); ended := true;
      }
      ghost var m := State();
      assert HandlerStep(old(State()), cmd, reply, m, concurrent);
      if !ended {
        ended, t := DrainEvictions();
      }
      assert DrainUnlessOver(m, t, State(), concurrent);
    }
  }
}
