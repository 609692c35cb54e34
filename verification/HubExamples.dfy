/** Runs of the hub in full: a hold that loses a frame that matters, and the id counter wrapping. */
module HubExamples {
  import opened Wire
  import opened HubSpec
  import opened HubViews

  // ----- Steps in which everybody has room -----

  predicate Roomy(c: Client) {
    !c.evicting && c.taken <= |c.stream| && Backlog(c) < SEND_BUFFER && (c.held ==> c.taken == 0)
  }

  ghost predicate AllRoomy(s: HubState) {
    s.evict == [] && !s.over && forall x :: x in s.clients ==> Roomy(s.clients[x])
  }

  function Add(c: Client, f: Frame): Client {
    c.(stream := c.stream + [f])
  }

  function Fan(s: HubState, f: Frame, except: Id): HubState {
    s.(clients := map x | x in s.clients :: if x == except then s.clients[x] else Add(s.clients[x], f))
  }

  lemma FanStep(s: HubState, f: Frame, except: Id)
    requires AllRoomy(s)
    ensures BroadcastStep(s, f, except, Fan(s, f, except), true)
  {
    var s' := Fan(s, f, except);
    forall x | x in s.clients ensures Fanned(s, f, except, s', x, true) {
      assert Drift(s.clients[x], s.clients[x], true);
    }
    assert s'.evict[|s.evict|..] == [];
    forall x ensures !NewlyEvicting(s, s', x) { }
    assert KickedConns(s, s') == {};
  }

  /** A run under construction, and the state it has come to. */
  ghost predicate At(states: seq<HubState>, labels: seq<Label>, s: HubState) {
    Run(states, labels) && states[|states| - 1] == s
  }

  lemma Extend(states: seq<HubState>, labels: seq<Label>, s: HubState, l: Label, s': HubState)
    returns (states': seq<HubState>, labels': seq<Label>)
    requires At(states, labels, s) && Next(s, l, s')
    ensures At(states', labels', s')
  {
    states', labels' := states + [s'], labels + [l];
    forall i | 0 <= i < |labels'| ensures Takes(states', labels', i) {
      if i < |labels| {
        assert Takes(states, labels, i);
        assert states'[i] == states[i] && states'[i + 1] == states[i + 1] && labels'[i] == labels[i];
      } else {
        assert states'[i] == s && states'[i + 1] == s' && labels'[i] == l;
      }
    }
  }

  lemma Done(s: HubState, cmd: Command, reply: Reply, m: HubState)
    requires !s.over && !m.over && m.evict == [] && HandlerStep(s, cmd, reply, m, true)
    ensures CommandStep(s, cmd, reply, Start, m, true)
  {
    assert DrainUnlessOver(m, Start, m, true);
  }

  function Joined(s: HubState, isCreate: bool, conn: ConnId, token: Token): HubState {
    Fan(Registered(s, isCreate, conn, token), ParticipantJoined(s.nextId), s.nextId)
  }

  lemma JoinDone(s: HubState, isCreate: bool, conn: ConnId, token: Token)
    requires AllRoomy(s) && |s.clients| < s.max
    ensures CommandStep(s, Join(isCreate, conn, token), Seated(s.nextId, 1, s.nextChan), Start, Joined(s, isCreate, conn, token), true)
  {
    FanStep(Registered(s, isCreate, conn, token), ParticipantJoined(s.nextId), s.nextId);
    Done(s, Join(isCreate, conn, token), Seated(s.nextId, 1, s.nextChan), Joined(s, isCreate, conn, token));
  }

  function Left(s: HubState, id: Id): HubState
    requires id in s.clients
  {
    Fan(Without(s, id), ParticipantLeft(id), 0)
  }

  lemma LeaveDone(s: HubState, id: Id, gen: nat)
    requires AllRoomy(s) && LeaveMatches(s, id, gen) && |s.clients - {id}| != 0
    ensures CommandStep(s, Leave(id, gen, false), Silent, Start, Left(s, id), true)
  {
    FanStep(Without(s, id), ParticipantLeft(id), 0);
    Done(s, Leave(id, gen, false), Silent, Left(s, id));
  }

  // ----- A hold that loses a departure -----

  const FILLER := Broadcast(1, Sealed(0, 1))

  function Fillers(k: nat): seq<Frame> {
    seq(k, _ => FILLER)
  }

  ghost predicate Begun(s: HubState) {
    && s.max == 8 && s.grace == 1 && s.evict == [] && !s.over && s.clients.Keys == {1} && s.nextId == 2
    && !s.clients[1].held && !s.clients[1].evicting && s.clients[1].taken == 0 && |s.clients[1].stream| == 1
    && s.clients[1].conn == 0 && s.kicked == {}
  }

  lemma Begin() returns (states: seq<HubState>, labels: seq<Label>, s: HubState)
    ensures At(states, labels, s) && Begun(s)
  {
    var s0 := HubState(8, 1, map[], HOST_ID, HOST_ID, [], {}, 0, false);
    states, labels := [s0], [];
    JoinDone(s0, true, 0, 0);
    s := Joined(s0, true, 0, 0);
    states, labels := Extend(states, labels, s0, Did(Join(true, 0, 0), Seated(1, 1, 0), Start), s);
  }

  /** Participant 2 is held with nothing buffered. */
  ghost predicate Dropped(s: HubState) {
    && s.max == 8 && s.evict == [] && !s.over && s.clients.Keys == {1, 2} && s.nextId == 3
    && !s.clients[1].held && !s.clients[1].evicting && s.clients[1].taken == 0 && |s.clients[1].stream| == 2
    && s.clients[2].held && !s.clients[2].evicting && s.clients[2].taken == 0 && s.clients[2].stream == []
  }

  lemma Drop2() returns (states: seq<HubState>, labels: seq<Label>, s: HubState)
    ensures At(states, labels, s) && Dropped(s)
  {
    var t;
    states, labels, t := Begin();
    assert |t.clients.Keys| == |t.clients|;
    JoinDone(t, false, 1, 7);
    var u := Joined(t, false, 1, 7);
    states, labels := Extend(states, labels, t, Did(Join(false, 1, 7), Seated(2, 1, t.nextChan), Start), u);
    s := HeldSlot(u, 2);
    Done(u, Leave(2, 1, true), Silent, s);
    states, labels := Extend(states, labels, u, Did(Leave(2, 1, true), Silent, Start), s);
  }

  /** Participant 3 has joined, and participant 1 has broadcast `k` frames since. */
  ghost predicate Filled(s: HubState, k: nat) {
    && s.evict == [] && !s.over && s.clients.Keys == {1, 2, 3}
    && !s.clients[1].held && !s.clients[1].evicting && s.clients[1].taken == 0 && |s.clients[1].stream| == 3
    && s.clients[2].held && !s.clients[2].evicting && s.clients[2].taken == 0
    && s.clients[2].stream == [ParticipantJoined(3)] + Fillers(k)
    && !s.clients[3].held && !s.clients[3].evicting && s.clients[3].taken == 0 && |s.clients[3].stream| == k + 1
    && s.clients[3].gen == 1
  }

  lemma Join3() returns (states: seq<HubState>, labels: seq<Label>, s: HubState)
    ensures At(states, labels, s) && Filled(s, 0)
  {
    var t;
    states, labels, t := Drop2();
    assert |t.clients.Keys| == |t.clients|;
    JoinDone(t, false, 2, 9);
    s := Joined(t, false, 2, 9);
    states, labels := Extend(states, labels, t, Did(Join(false, 2, 9), Seated(3, 1, t.nextChan), Start), s);
    assert [] + [ParticipantJoined(3)] == [ParticipantJoined(3)] + Fillers(0);
  }

  lemma {:induction false} Fill(k: nat) returns (states: seq<HubState>, labels: seq<Label>, s: HubState)
    requires k < SEND_BUFFER - 1
    ensures At(states, labels, s) && Filled(s, k)
  {
    if k == 0 {
      states, labels, s := Join3();
    } else {
      var t;
      states, labels, t := Fill(k - 1);
      FanStep(t, FILLER, 1);
      s := Fan(t, FILLER, 1);
      Done(t, Forward(1, ToAll(Sealed(0, 1))), Silent, s);
      states, labels := Extend(states, labels, t, Did(Forward(1, ToAll(Sealed(0, 1))), Silent, Start), s);
      assert [ParticipantJoined(3)] + Fillers(k - 1) + [FILLER] == [ParticipantJoined(3)] + Fillers(k);
    }
  }

  /** A run to a hold that is clipped: resuming it leaves the client with a member who is gone. */
  lemma ClippedHold() returns (states: seq<HubState>, labels: seq<Label>, i: nat)
    ensures Run(states, labels) && i < |states| && !states[i].over
    ensures 2 in states[i].clients && states[i].clients[2].held && Clipped(states[i].clients[2].stream)
    ensures states[i].clients[2].taken <= |states[i].clients[2].stream|
    ensures forall conn :: 3 in View(ResumedSlot(states[i], 2, conn).clients[2].stream) && 3 !in states[i].clients
  {
    var t;
    states, labels, t := Fill(SEND_BUFFER - 2);
    assert 1 in (t.clients - {3}).Keys;
    assert |(t.clients - {3}).Keys| == |t.clients - {3}|;
    LeaveDone(t, 3, 1);
    var s := Left(t, 3);
    states, labels := Extend(states, labels, t, Did(Leave(3, 1, false), Silent, Start), s);
    i := |states| - 1;
    var fs := s.clients[2].stream;
    assert fs == [ParticipantJoined(3)] + Fillers(SEND_BUFFER - 2) + [ParticipantLeft(3)];
    assert fs[..SEND_BUFFER - 1][0] == ParticipantJoined(3);
    StillSeen(states, labels, i, fs);
  }

  lemma StillSeen(states: seq<HubState>, labels: seq<Label>, i: nat, fs: seq<Frame>)
    requires Run(states, labels) && i < |states| && !states[i].over && 2 in states[i].clients && states[i].clients[2].held
    requires states[i].clients[2].taken == 0 && fs == states[i].clients[2].stream && 3 !in states[i].clients
    requires fs == [ParticipantJoined(3)] + Fillers(SEND_BUFFER - 2) + [ParticipantLeft(3)]
    ensures forall conn :: 3 in View(ResumedSlot(states[i], 2, conn).clients[2].stream)
  {
    var kept := [ParticipantJoined(3)] + Fillers(SEND_BUFFER - 2);
    assert fs[0..] == fs && fs[..SEND_BUFFER - 1] == kept;
    assert kept[0] == ParticipantJoined(3);
    forall conn ensures 3 in View(ResumedSlot(states[i], 2, conn).clients[2].stream) {
      RunKeeps(states, labels, i);
      assert SlotOk(states[i], 2);
      ResumedView(states[i], 2, conn);
      ReplayHolds(PeersExcept(states[i], 2), kept, 3);
    }
  }

  // ----- The counter wraps -----

  /** Only participant 1 is there, it has received everything, and the next id is `n`. */
  ghost predicate Cycled(s: HubState, n: nat) {
    && s.max == 8 && s.evict == [] && !s.over && s.clients.Keys == {1} && s.nextId == n
    && !s.clients[1].held && !s.clients[1].evicting && s.clients[1].taken == |s.clients[1].stream|
    && s.clients[1].conn == 0 && s.kicked <= {1}
  }

  /** Participant `n` is there too. */
  ghost predicate Visited(s: HubState, n: nat) {
    && s.max == 8 && s.evict == [] && !s.over && s.clients.Keys == {1, n} && s.nextId == n + 1
    && !s.clients[1].held && !s.clients[1].evicting && s.clients[1].taken + 1 == |s.clients[1].stream|
    && s.clients[1].conn == 0 && s.kicked <= {1}
    && Roomy(s.clients[n]) && LeaveMatches(s, n, 1) && s.clients[n].conn == 1
  }

  lemma CycleIn(states: seq<HubState>, labels: seq<Label>, s: HubState, n: nat)
    returns (states': seq<HubState>, labels': seq<Label>, s': HubState)
    requires At(states, labels, s) && Cycled(s, n) && 2 <= n && n + 1 < ID_SPACE
    ensures At(states', labels', s') && Visited(s', n)
  {
    Sizes(s, {1});
    JoinDone(s, false, 1, 7);
    s' := Joined(s, false, 1, 7);
    states', labels' := Extend(states, labels, s, Did(Join(false, 1, 7), Seated(n, 1, s.nextChan), Start), s');
  }

  lemma CycleOut(states: seq<HubState>, labels: seq<Label>, s: HubState, n: nat)
    returns (states': seq<HubState>, labels': seq<Label>, s': HubState)
    requires At(states, labels, s) && Visited(s, n) && 2 <= n
    ensures At(states', labels', s') && s' == Left(s, n)
  {
    assert 1 in (s.clients - {n}).Keys;
    assert |(s.clients - {n}).Keys| == |s.clients - {n}|;
    LeaveDone(s, n, 1);
    s' := Left(s, n);
    states', labels' := Extend(states, labels, s, Did(Leave(n, 1, false), Silent, Start), s');
  }

  /** Somebody joins and leaves again, and participant 1 receives the notices. */
  lemma Cycle(states: seq<HubState>, labels: seq<Label>, s: HubState, n: nat)
    returns (states': seq<HubState>, labels': seq<Label>, s': HubState)
    requires At(states, labels, s) && Cycled(s, n) && 2 <= n && n + 1 < ID_SPACE
    ensures At(states', labels', s') && Cycled(s', n + 1)
  {
    var t, u;
    states', labels', t := CycleIn(states, labels, s, n);
    states', labels', u := CycleOut(states', labels', t, n);
    assert u.clients.Keys == {1};
    s' := u.(clients := map[1 := u.clients[1].(taken := |u.clients[1].stream|)]);
    states', labels' := Extend(states', labels', u, Quiet, s');
  }

  lemma {:induction false} Cycles(n: nat) returns (states: seq<HubState>, labels: seq<Label>, s: HubState)
    requires 2 <= n < ID_SPACE
    ensures At(states, labels, s) && Cycled(s, n)
  {
    if n == 2 {
      var t;
      states, labels, t := Begin();
      s := t.(clients := map[1 := t.clients[1].(taken := |t.clients[1].stream|)]);
      states, labels := Extend(states, labels, t, Quiet, s);
    } else {
      var t;
      states, labels, t := Cycles(n - 1);
      states, labels, s := Cycle(states, labels, t, n - 1);
    }
  }

  /** The hub's runs lead to the last id. Three more joins get the last id, id 0, and id 1 again: the
      third newcomer takes over the creator's slot, and the creator's connection is not even told. */
  lemma CounterWraps(last: nat) returns (states: seq<HubState>, labels: seq<Label>, a: HubState, b: HubState, c: HubState)
    requires last == ID_SPACE - 1
    ensures Run(states, labels)
    ensures var s := states[|states| - 1];
      && CommandStep(s, Join(false, 2, 7), Seated(last, 1, s.nextChan), Start, a, true)
      && CommandStep(a, Join(false, 3, 8), Seated(0, 1, a.nextChan), Start, b, true)
      && CommandStep(b, Join(false, 4, 9), Seated(1, 1, b.nextChan), Start, c, true)
    ensures 0 in b.clients && 1 in b.clients && b.clients[1].conn == 0
    ensures c.clients.Keys == b.clients.Keys && c.clients[1].conn == 4 && 0 !in c.kicked
  {
    var s;
    states, labels, s := Cycles(last);
    a, b, c := ThreeMore(s, last);
  }

  /** The participants are `ids`, nobody is behind by more than `n`, and 0 has not been kicked. */
  ghost predicate Small(s: HubState, ids: set<Id>, n: nat) {
    && s.max == 8 && s.evict == [] && !s.over && s.clients.Keys == ids && |ids| <= 3 && 0 !in s.kicked
    && forall x :: x in ids ==> Roomy(s.clients[x]) && Backlog(s.clients[x]) <= n
  }

  lemma JoinSmall(s: HubState, conn: ConnId, token: Token, ids: set<Id>, n: nat) returns (s': HubState)
    requires Small(s, ids, n) && n < 8 && |ids + {s.nextId}| <= 3
    ensures CommandStep(s, Join(false, conn, token), Seated(s.nextId, 1, s.nextChan), Start, s', true)
    ensures Small(s', ids + {s.nextId}, n + 1) && s'.nextId == Successor(s.nextId)
    ensures s'.clients[s.nextId].conn == conn
    ensures 1 in ids && s.nextId != 1 ==> s'.clients[1].conn == s.clients[1].conn
  {
    Sizes(s, ids);
    JoinDone(s, false, conn, token);
    s' := Joined(s, false, conn, token);
    JoinedSmall(s, conn, token, ids, n);
  }

  lemma JoinedSmall(s: HubState, conn: ConnId, token: Token, ids: set<Id>, n: nat)
    requires Small(s, ids, n) && n < 8 && |ids + {s.nextId}| <= 3
    ensures Small(Joined(s, false, conn, token), ids + {s.nextId}, n + 1)
  {
    var s', id := Joined(s, false, conn, token), s.nextId;
    assert s'.clients.Keys == ids + {id};
    forall x | x in ids + {id} ensures Roomy(s'.clients[x]) && Backlog(s'.clients[x]) <= n + 1 {
      if x != id {
        AddedRoom(s.clients[x], ParticipantJoined(id), n);
        assert s'.clients[x] == Add(s.clients[x], ParticipantJoined(id));
      }
    }
  }

  lemma AddedRoom(c: Client, f: Frame, n: nat)
    requires Roomy(c) && Backlog(c) <= n < 8
    ensures Roomy(Add(c, f)) && Backlog(Add(c, f)) <= n + 1
  {
  }

  lemma ThreeMore(s: HubState, last: nat) returns (a: HubState, b: HubState, c: HubState)
    requires last == ID_SPACE - 1 && Cycled(s, last)
    ensures CommandStep(s, Join(false, 2, 7), Seated(last, 1, s.nextChan), Start, a, true)
    ensures CommandStep(a, Join(false, 3, 8), Seated(0, 1, a.nextChan), Start, b, true)
    ensures CommandStep(b, Join(false, 4, 9), Seated(1, 1, b.nextChan), Start, c, true)
    ensures 0 in b.clients && 1 in b.clients && b.clients[1].conn == 0
    ensures c.clients.Keys == b.clients.Keys && c.clients[1].conn == 4 && 0 !in c.kicked
  {
    IdsRunOut(last);
    var ids := {1} + {last};
    a := JoinSmall(s, 2, 7, {1}, 0);
    b, c := TwoMore(a, ids);
  }

  lemma TwoMore(a: HubState, ids: set<Id>) returns (b: HubState, c: HubState)
    requires Small(a, ids, 1) && a.nextId == 0 && 1 in ids && |ids| <= 2 && a.clients[1].conn == 0
    ensures CommandStep(a, Join(false, 3, 8), Seated(0, 1, a.nextChan), Start, b, true)
    ensures CommandStep(b, Join(false, 4, 9), Seated(1, 1, b.nextChan), Start, c, true)
    ensures 0 in b.clients && 1 in b.clients && b.clients[1].conn == 0
    ensures c.clients.Keys == b.clients.Keys && c.clients[1].conn == 4 && 0 !in c.kicked
  {
    IdsRunOut(0);
    b := JoinSmall(a, 3, 8, ids, 1);
    var more := ids + {0};
    assert more + {1} == more;
    c := JoinSmall(b, 4, 9, more, 2);
  }

  lemma Sizes(s: HubState, ids: set<Id>)
    requires s.clients.Keys == ids && |ids| <= 3
    ensures |s.clients| <= 3
  {
    assert |s.clients.Keys| == |s.clients|;
  }
}
