/** The relay's own steps keep the session's invariant: joining, leaving, claiming and routing. */
module SessionRelay {
  import opened Wire
  import opened Ends
  import opened Session
  import opened SessionPipes
  import opened KeyAgreement
  import opened SessionInv

  // ----- Streams that grow -----

  lemma PushFrom(n: Node, f: Frame, h: Id)
    requires n.read <= |n.stream|
    ensures From(Unread(Push(n, f)), h) == From(Unread(n), h) + PayloadFrom(f, h)
  {
    assert Unread(Push(n, f)) == Unread(n) + [f];
    FromSnoc(Unread(n), f, h);
  }

  lemma NodePushed(s: Sys, s': Sys, y: Id, f: Frame)
    requires y in s.nodes && NodeOk(s, y) && Later(s, s') && y in s'.nodes
    requires s'.nodes[y] == Push(s.nodes[y], f) && FrameOk(s', y, f)
    ensures NodeOk(s', y)
  {
    var t := s'.(nodes := s'.nodes[y := s.nodes[y]]);
    NodeLater(s, t, y);
    var n, n' := s.nodes[y], s'.nodes[y];
    forall i | 0 <= i < |n'.stream| ensures FrameOk(s', y, n'.stream[i]) {
      if i < |n.stream| { assert FrameOk(t, y, n.stream[i]); }
    }
    forall i | 0 <= i < |n.outbox| ensures OutOk(s', y, n'.outbox[i]) { assert OutOk(t, y, n.outbox[i]); }
    var ws := n.end.writing;
    forall i | 0 <= i < |ws| ensures WriteOk(s', y, ws[i]) { assert WriteOk(t, y, ws[i]); }
  }

  /** The two ends and what is between them, in both directions, are as they were. */
  ghost predicate Same(s: Sys, s': Sys, h: Id, m: Id) {
    && h in s.nodes && m in s.nodes && h in s'.nodes && m in s'.nodes
    && s.nodes[h].end == s'.nodes[h].end && s.nodes[m].end == s'.nodes[m].end
    && s.nodes[h].read <= |s.nodes[h].stream| && s.nodes[m].read <= |s.nodes[m].stream|
    && s'.nodes[h].read <= |s'.nodes[h].stream| && s'.nodes[m].read <= |s'.nodes[m].stream|
    && Pipe(s.nodes[h], s.nodes[m], h, m) == Pipe(s'.nodes[h], s'.nodes[m], h, m)
    && Pipe(s.nodes[m], s.nodes[h], m, h) == Pipe(s'.nodes[m], s'.nodes[h], m, h)
  }

  lemma SameHolds(s: Sys, s': Sys, h: Id, m: Id)
    requires Same(s, s', h, m) && PairHolds(s, h, m)
    ensures PairHolds(s', h, m)
  {
  }

  lemma NoticePipe(nh: Node, nm: Node, f: Frame, h: Id, m: Id)
    requires nm.read <= |nm.stream| && PayloadFrom(f, h) == []
    ensures Pipe(Push(nh, f), Push(nm, f), h, m) == Pipe(nh, nm, h, m)
  {
    PushFrom(nm, f, h);
    assert From(Unread(nm), h) + [] == From(Unread(nm), h);
  }

  /** Both ends are told something that carries no payload. */
  lemma NoticeSame(s: Sys, s': Sys, h: Id, m: Id, f: Frame)
    requires h in s.nodes && m in s.nodes && h in s'.nodes && m in s'.nodes
    requires s.nodes[h].read <= |s.nodes[h].stream| && s.nodes[m].read <= |s.nodes[m].stream|
    requires s'.nodes[h] == Push(s.nodes[h], f) && s'.nodes[m] == Push(s.nodes[m], f)
    requires PayloadFrom(f, h) == [] && PayloadFrom(f, m) == []
    ensures Same(s, s', h, m)
  {
    NoticePipe(s.nodes[h], s.nodes[m], f, h, m);
    NoticePipe(s.nodes[m], s.nodes[h], f, m, h);
  }

  // ----- Claim -----

  lemma ClaimKeeps(s: Sys, x: Id)
    requires Inv(s) && Enabled(s, DoClaim(x))
    ensures Inv(Next(s, DoClaim(x)))
  {
    var s' := Next(s, DoClaim(x));
    forall z | z in s'.nodes ensures NodeOk(s', z) {
      assert NodeOk(s, z);
      NodeLater(s, s', z);
    }
    forall h, m | h in s'.members && m in s'.members && h != m ensures PairHolds(s', h, m) {
      assert PairHolds(s, h, m);
    }
  }

  // ----- Leave -----

  lemma ReadInside(s: Sys, x: Id)
    requires Inv(s) && x in s.nodes
    ensures s.nodes[x].read <= |s.nodes[x].stream|
  {
    assert NodeOk(s, x);
  }

  lemma LeaveNodes(s: Sys, x: Id)
    requires Inv(s) && Enabled(s, DoLeave(x))
    ensures NodesOk(Next(s, DoLeave(x)))
  {
    var s' := Next(s, DoLeave(x));
    forall z | z in s'.nodes ensures NodeOk(s', z) {
      assert NodeOk(s, z);
      if z in s'.members { NodePushed(s, s', z, ParticipantLeft(x)); } else { NodeLater(s, s', z); }
    }
  }

  lemma LeaveKeeps(s: Sys, x: Id)
    requires Inv(s) && Enabled(s, DoLeave(x))
    ensures Inv(Next(s, DoLeave(x)))
  {
    LeaveNodes(s, x);
    var s' := Next(s, DoLeave(x));
    forall h, m | h in s'.members && m in s'.members && h != m ensures PairHolds(s', h, m) {
      assert PairHolds(s, h, m);
      ReadInside(s, h);
      ReadInside(s, m);
      NoticeSame(s, s', h, m, ParticipantLeft(x));
      SameHolds(s, s', h, m);
    }
  }

  // ----- Join -----

  lemma {:induction false} FromNobody(fs: seq<Frame>, h: Id)
    requires forall i :: 0 <= i < |fs| ==> PayloadFrom(fs[i], h) == []
    ensures From(fs, h) == []
  {
    if fs != [] { FromNobody(fs[..|fs| - 1], h); }
  }

  /** To an end that nothing is addressed to go only broadcasts. */
  lemma {:induction false} ToNew(os: seq<Out>, h: Id, x: Id, keys: seq<GroupKey>)
    requires forall i :: 0 <= i < |os| ==> (os[i].ToOne? ==> os[i].to != x) && (os[i].ToAll? ==> os[i].key in keys)
    ensures forall i :: 0 <= i < |To(os, h, x)| ==> To(os, h, x)[i].Sealed? && To(os, h, x)[i].key in keys
  {
    if os != [] { ToNew(os[..|os| - 1], h, x, keys); }
  }

  /** What a member and the new end have on the way to each other. */
  lemma NewPipes(s: Sys, observer: bool, h: Id) returns (ps: seq<Payload>, qs: seq<Payload>)
    requires Inv(s) && h in s.members
    ensures var s', x := Next(s, DoJoin(observer)), s.nextId;
      && h in s'.nodes && x in s'.nodes && s'.nodes[h].end == s.nodes[h].end
      && s'.nodes[h].read <= |s'.nodes[h].stream| && s'.nodes[x].read <= |s'.nodes[x].stream|
      && ps == Pipe(s'.nodes[h], s'.nodes[x], h, x) && qs == Pipe(s'.nodes[x], s'.nodes[h], x, h)
    ensures forall i :: 0 <= i < |ps| ==> ps[i].Sealed? && ps[i].key in s.nodes[h].end.v.installed
    ensures qs == if h == s.relayHost then [Pake1(s.nonce, observer)] else []
  {
    var s', x := Next(s, DoJoin(observer)), s.nextId;
    assert NodeOk(s, h);
    var n, nx := s.nodes[h], s'.nodes[x];
    assert s'.nodes[h] == Push(n, ParticipantJoined(x));
    PushFrom(n, ParticipantJoined(x), x);
    forall i | 0 <= i < |Unread(n)| ensures PayloadFrom(Unread(n)[i], x) == [] {
      assert FrameOk(s, h, n.stream[n.read + i]);
    }
    FromNobody(Unread(n), x);
    forall i | 0 <= i < |n.outbox| && n.outbox[i].ToOne? ensures n.outbox[i].to != x {
      assert OutOk(s, h, n.outbox[i]);
    }
    ToNew(n.outbox, h, x, n.end.v.installed);
    ToSnoc([], nx.outbox[0], x, h);
    assert nx.outbox == [] + [nx.outbox[0]];
    ps, qs := Pipe(s'.nodes[h], nx, h, x), Pipe(nx, s'.nodes[h], x, h);
  }

  lemma NewAbout(s: Sys, h: Id, x: Id)
    requires Inv(s) && h in s.members && x == s.nextId
    ensures h in s.nodes && About(s.nodes[h].end.writing, x) == [] && x !in s.nodes[h].end.pairwise
    ensures x !in s.nodes[h].end.hist.asked && FlightTo(s.nodes[h].end, x) == []
  {
    assert NodeOk(s, h);
    var ws := s.nodes[h].end.writing;
    forall i | 0 <= i < |ws| ensures ws[i].0 != x { assert WriteOk(s, h, ws[i]); }
    AboutNobody(ws, x);
  }

  lemma NewPairs(s: Sys, observer: bool, h: Id)
    requires Inv(s) && h in s.members
    ensures var s' := Next(s, DoJoin(observer)); PairHolds(s', h, s.nextId) && PairHolds(s', s.nextId, h)
  {
    var ps, qs := NewPipes(s, observer, h);
    NewAbout(s, h, s.nextId);
    var e := s.nodes[h].end;
    NewMember(h, s.nextId, e, s.relayHost, s.nonce, observer, ps, qs);
    NewHost(h, s.nextId, e, s.relayHost, s.nonce, ps, qs);
  }

  /** The new end as a member: its first flight is on its way to the host it was named. */
  lemma NewMember(h: Id, x: Id, e: End, host: Id, nonce: nat, observer: bool, ps: seq<Payload>, qs: seq<Payload>)
    requires x !in e.pairwise && About(e.writing, x) == []
    requires forall i :: 0 <= i < |ps| ==> ps[i].Sealed? && ps[i].key in e.v.installed
    requires qs == if h == host then [Pake1(nonce, observer)] else []
    ensures PairOk(h, x, e, Joiner(x, host, nonce), ps, qs)
  {
    if h == host { AskFirst(qs[0], []); assert qs == [qs[0]] + []; }
  }

  /** The new end as a host: nobody has asked it anything. */
  lemma NewHost(h: Id, x: Id, e: End, host: Id, nonce: nat, ps: seq<Payload>, qs: seq<Payload>)
    requires x !in e.hist.asked && FlightTo(e, x) == [] && Silent(qs) && (forall i :: 0 <= i < |qs| ==> !qs[i].Sealed?)
    requires forall i :: 0 <= i < |ps| ==> ps[i].Sealed?
    ensures PairOk(x, h, Joiner(x, host, nonce), e, qs, ps)
  {
    NoAsks(ps);
  }

  lemma NewNode(s: Sys, observer: bool)
    requires Inv(s)
    ensures NodeOk(Next(s, DoJoin(observer)), s.nextId)
  {
  }

  lemma JoinNodes(s: Sys, observer: bool)
    requires Inv(s)
    ensures NodesOk(Next(s, DoJoin(observer)))
  {
    var s', x := Next(s, DoJoin(observer)), s.nextId;
    forall z | z in s'.nodes ensures NodeOk(s', z) {
      if z == x {
        NewNode(s, observer);
      } else {
        assert NodeOk(s, z);
        if z in s.members { NodePushed(s, s', z, ParticipantJoined(x)); } else { NodeLater(s, s', z); }
      }
    }
  }

  lemma JoinPairs(s: Sys, observer: bool)
    requires Inv(s)
    ensures PairsOk(Next(s, DoJoin(observer)))
  {
    var s', x := Next(s, DoJoin(observer)), s.nextId;
    forall h, m | h in s'.members && m in s'.members && h != m ensures PairHolds(s', h, m) {
      if h == x {
        NewPairs(s, observer, m);
      } else if m == x {
        NewPairs(s, observer, h);
      } else {
        assert PairHolds(s, h, m);
        ReadInside(s, h);
        ReadInside(s, m);
        NoticeSame(s, s', h, m, ParticipantJoined(x));
        SameHolds(s, s', h, m);
      }
    }
  }

  lemma JoinKeeps(s: Sys, observer: bool)
    requires Inv(s)
    ensures Inv(Next(s, DoJoin(observer)))
  {
    JoinNodes(s, observer);
    JoinPairs(s, observer);
  }

  // ----- Route -----

  function Routed(x: Id, o: Out): Frame {
    match o
    case ToOne(to, p) => Direct(x, to, p)
    case ToAll(key) => Broadcast(x, Sealed(key, x))
  }

  predicate Reaches(x: Id, o: Out, m: Id) {
    match o
    case ToOne(to, _) => to == m
    case ToAll(_) => m != x
  }

  lemma RouteStream(s: Sys, x: Id, m: Id)
    requires x in s.nodes && s.nodes[x].outbox != [] && m in s.nodes && m in s.members
    ensures var s', o := Route(s, x), s.nodes[x].outbox[0];
      && m in s'.nodes && s'.nodes[m].end == s.nodes[m].end && s'.nodes[m].read == s.nodes[m].read
      && s'.nodes[m].stream == if Reaches(x, o, m) then s.nodes[m].stream + [Routed(x, o)] else s.nodes[m].stream
  {
  }

  /** What the relay adds to the stream of a member. */
  lemma RouteFrom(s: Sys, x: Id, h: Id, m: Id, extra: seq<Payload>)
    requires x in s.nodes && s.nodes[x].outbox != [] && m in s.nodes && m in s.members && m != h
    requires s.nodes[m].read <= |s.nodes[m].stream|
    requires extra == if h == x then PayloadTo(s.nodes[x].outbox[0], x, m) else []
    ensures var s' := Route(s, x);
      && m in s'.nodes && s'.nodes[m].end == s.nodes[m].end && s'.nodes[m].read <= |s'.nodes[m].stream|
      && From(Unread(s'.nodes[m]), h) == From(Unread(s.nodes[m]), h) + extra
  {
    RouteStream(s, x, m);
    var o := s.nodes[x].outbox[0];
    assert Reaches(x, o, m) ==> PayloadFrom(Routed(x, o), h) == extra;
    assert !Reaches(x, o, m) ==> extra == [];
    PushFrom(s.nodes[m], Routed(x, o), h);
    assert From(Unread(s.nodes[m]), h) + [] == From(Unread(s.nodes[m]), h);
  }

  lemma RouteOutbox(s: Sys, x: Id, h: Id)
    requires x in s.nodes && s.nodes[x].outbox != [] && h in s.nodes
    ensures var s' := Route(s, x);
      h in s'.nodes && s'.nodes[h].outbox == if h == x then s.nodes[h].outbox[1..] else s.nodes[h].outbox
  {
  }

  /** Routing moves the head of an outbox to the end of a stream, and what is between two members
      stays the same. */
  lemma RoutePipe(s: Sys, x: Id, h: Id, m: Id)
    requires x in s.nodes && s.nodes[x].outbox != [] && m in s.members && h != m
    requires h in s.nodes && m in s.nodes && s.nodes[m].read <= |s.nodes[m].stream|
    ensures var s' := Route(s, x);
      && h in s'.nodes && m in s'.nodes && s'.nodes[m].end == s.nodes[m].end
      && s'.nodes[m].read <= |s'.nodes[m].stream|
      && Pipe(s'.nodes[h], s'.nodes[m], h, m) == Pipe(s.nodes[h], s.nodes[m], h, m)
  {
    RouteOutbox(s, x, h);
    if h == x {
      var os, extra := s.nodes[x].outbox, PayloadTo(s.nodes[x].outbox[0], x, m);
      RouteFrom(s, x, h, m, extra);
      ToCons(os, x, m);
      Shift(From(Unread(s.nodes[m]), h), extra, To(os[1..], x, m));
    } else {
      RouteFrom(s, x, h, m, []);
      assert From(Unread(s.nodes[m]), h) + [] == From(Unread(s.nodes[m]), h);
    }
  }

  lemma Shift(a: seq<Payload>, b: seq<Payload>, c: seq<Payload>)
    ensures (a + b) + c == a + (b + c)
  {
  }

  lemma RouteTail(s: Sys, x: Id, z: Id, t: Sys)
    requires Inv(s) && Enabled(s, DoRoute(x)) && z in s.nodes
    requires t == s.(nodes := s.nodes[x := s.nodes[x].(outbox := s.nodes[x].outbox[1..])])
    ensures NodeOk(t, z)
  {
    assert NodeOk(s, z);
    var n := s.nodes[x];
    if z == x {
      forall i | 0 <= i < |n.stream| ensures FrameOk(t, x, n.stream[i]) { assert FrameOk(s, x, n.stream[i]); }
      forall i | 1 <= i < |n.outbox| ensures OutOk(t, x, n.outbox[i]) { assert OutOk(s, x, n.outbox[i]); }
    } else {
      NodeLater(s, t, z);
    }
  }

  lemma RouteHead(s: Sys, x: Id)
    requires Inv(s) && Enabled(s, DoRoute(x))
    ensures OutOk(s, x, s.nodes[x].outbox[0])
  {
    assert NodeOk(s, x);
  }

  lemma RouteNode(s: Sys, x: Id, z: Id)
    requires Inv(s) && Enabled(s, DoRoute(x)) && z in s.nodes
    ensures z in Next(s, DoRoute(x)).nodes && NodeOk(Next(s, DoRoute(x)), z)
  {
    RouteHead(s, x);
    var s', n := Next(s, DoRoute(x)), s.nodes[x];
    var t := s.(nodes := s.nodes[x := n.(outbox := n.outbox[1..])]);
    RouteTail(s, x, z, t);
    if s'.nodes[z] == t.nodes[z] { NodeLater(t, s', z); } else { NodePushed(t, s', z, Routed(x, n.outbox[0])); }
  }

  lemma RoutePairs(s: Sys, x: Id)
    requires Inv(s) && Enabled(s, DoRoute(x))
    ensures PairsOk(Next(s, DoRoute(x)))
  {
    var s' := Next(s, DoRoute(x));
    forall h, m | h in s'.members && m in s'.members && h != m ensures PairHolds(s', h, m) {
      assert PairHolds(s, h, m);
      ReadInside(s, h);
      ReadInside(s, m);
      RoutePipe(s, x, h, m);
      RoutePipe(s, x, m, h);
      SameHolds(s, s', h, m);
    }
  }

  lemma RouteShape(s: Sys, x: Id)
    requires Enabled(s, DoRoute(x))
    ensures var s' := Next(s, DoRoute(x));
      s'.nodes.Keys == s.nodes.Keys && s'.members == s.members && s'.nextId == s.nextId && s'.relayHost == s.relayHost
  {
  }

  lemma RouteKeeps(s: Sys, x: Id)
    requires Inv(s) && Enabled(s, DoRoute(x))
    ensures Inv(Next(s, DoRoute(x)))
  {
    var s' := Next(s, DoRoute(x));
    RouteShape(s, x);
    assert Shape(s') by { assert forall z :: z in s'.nodes <==> z in s.nodes; }
    forall z | z in s'.nodes ensures NodeOk(s', z) {
      RouteNode(s, x, z);
    }
    RoutePairs(s, x);
  }
}
