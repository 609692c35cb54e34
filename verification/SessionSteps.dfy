/** Every step of a session keeps the invariant. */
module SessionSteps {
  import opened Wire
  import opened Ends
  import opened Session
  import opened SessionPipes
  import opened KeyAgreement
  import opened SessionInv
  import opened SessionReads

  // ----- Steps that change one node -----

  ghost predicate Touches(s: Sys, x: Id, s': Sys) {
    && x in s.nodes && x in s'.nodes && s.minted <= s'.minted && s.nonce <= s'.nonce
    && s' == s.(nodes := s.nodes[x := s'.nodes[x]], minted := s'.minted, nonce := s'.nonce)
  }

  lemma OneNode(s: Sys, x: Id, s': Sys)
    requires Inv(s) && Touches(s, x, s') && NodeOk(s', x)
    requires x in s.members ==> forall m :: m in s.members && m != x ==> PairHolds(s', x, m) && PairHolds(s', m, x)
    ensures Inv(s')
  {
    forall z | z in s'.nodes ensures NodeOk(s', z) {
      if z != x {
        assert NodeOk(s, z);
        NodeLater(s, s', z);
      }
    }
    forall h, m | h in s'.members && m in s'.members && h != m ensures PairHolds(s', h, m) {
      if h != x && m != x {
        assert PairHolds(s, h, m);
      } else {
        assert h == x ==> PairHolds(s', x, m);
        assert m == x ==> PairHolds(s', h, x);
      }
    }
  }

  /** Both directions of a pair, with the pipes named. */
  lemma PairOpen(s: Sys, x: Id, m: Id)
    requires Inv(s) && x in s.members && m in s.members && x != m
    ensures x in s.nodes && m in s.nodes
    ensures var nx, nm := s.nodes[x], s.nodes[m];
      && nx.read <= |nx.stream| && nm.read <= |nm.stream| && EndOk(s, x, nx.end) && EndOk(s, m, nm.end)
      && PairOk(x, m, nx.end, nm.end, Pipe(nx, nm, x, m), Pipe(nm, nx, m, x))
      && PairOk(m, x, nm.end, nx.end, Pipe(nm, nx, m, x), Pipe(nx, nm, x, m))
  {
    assert PairHolds(s, x, m) && PairHolds(s, m, x);
    assert NodeOk(s, x) && NodeOk(s, m);
  }

  lemma Hold(s: Sys, h: Id, m: Id, ps: seq<Payload>, qs: seq<Payload>)
    requires h in s.nodes && m in s.nodes
    requires s.nodes[h].read <= |s.nodes[h].stream| && s.nodes[m].read <= |s.nodes[m].stream|
    requires ps == Pipe(s.nodes[h], s.nodes[m], h, m) && qs == Pipe(s.nodes[m], s.nodes[h], m, h)
    requires PairOk(h, m, s.nodes[h].end, s.nodes[m].end, ps, qs)
    ensures PairHolds(s, h, m)
  {
  }

  lemma OutSnoc(n: Node, nm: Node, x: Id, m: Id, o: Out)
    requires nm.read <= |nm.stream|
    ensures Pipe(n.(outbox := n.outbox + [o]), nm, x, m) == Pipe(n, nm, x, m) + PayloadTo(o, x, m)
  {
    ToSnoc(n.outbox, o, x, m);
  }

  lemma AsksSnoc(ps: seq<Payload>, p: Payload)
    requires !IsAsk(p)
    ensures AsksIn(ps + [p]) == AsksIn(ps)
  {
    AsksConcat(ps, [p]);
    assert AsksIn([p]) == [];
  }

  // ----- Write -----

  lemma WriteNode(s: Sys, x: Id)
    requires Inv(s) && Enabled(s, DoWrite(x))
    ensures NodeOk(Next(s, DoWrite(x)), x)
  {
    var s' := Next(s, DoWrite(x));
    assert NodeOk(s, x);
    var n, n' := s.nodes[x], s'.nodes[x];
    assert n.end.v.role == ROLE_HOST;
    forall i | 0 <= i < |n'.stream| ensures FrameOk(s', x, n'.stream[i]) { assert FrameOk(s, x, n.stream[i]); }
    forall i | 0 <= i < |n'.outbox| ensures OutOk(s', x, n'.outbox[i]) {
      if i < |n.outbox| { assert OutOk(s, x, n.outbox[i]); }
    }
  }

  lemma WriteBoth(x: Id, m: Id, ex: End, em: End, ps: seq<Payload>, qs: seq<Payload>, ps': seq<Payload>)
    requires PairOk(x, m, ex, em, ps, qs) && PairOk(m, x, em, ex, qs, ps) && RingOk(Due(em))
    requires ex.writing != [] && !Inert(ex.writing[0].1)
    requires ps' == if ex.writing[0].0 == m then ps + [ex.writing[0].1] else ps
    ensures var e' := ex.(writing := ex.writing[1..]); PairOk(x, m, e', em, ps', qs) && PairOk(m, x, em, e', qs, ps')
  {
    var e' := ex.(writing := ex.writing[1..]);
    HostWrites(x, m, ex, em, ps, qs, e');
    AsksSnoc(ps, ex.writing[0].1);
    MemberOther(m, x, em, ex, qs, ps, e', ps');
  }

  lemma WritePipe(s: Sys, x: Id, m: Id, ps': seq<Payload>)
    requires Enabled(s, DoWrite(x)) && m in s.nodes && m != x
    requires s.nodes[m].read <= |s.nodes[m].stream| && s.nodes[x].read <= |s.nodes[x].stream|
    requires var w, ps := s.nodes[x].end.writing[0], Pipe(s.nodes[x], s.nodes[m], x, m);
      ps' == if w.0 == m then ps + [w.1] else ps
    ensures var nx, nm, nx' := s.nodes[x], s.nodes[m], Next(s, DoWrite(x)).nodes[x];
      Pipe(nx', nm, x, m) == ps' && Pipe(nm, nx', m, x) == Pipe(nm, nx, m, x)
  {
    var (to, p) := s.nodes[x].end.writing[0];
    OutSnoc(s.nodes[x], s.nodes[m], x, m, ToOne(to, p));
  }

  lemma WriteReady(s: Sys, x: Id, m: Id)
    requires Inv(s) && Enabled(s, DoWrite(x)) && m in s.nodes
    ensures !Inert(s.nodes[x].end.writing[0].1) && RingOk(Due(s.nodes[m].end))
  {
    assert NodeOk(s, x) && NodeOk(s, m);
    assert WriteOk(s, x, s.nodes[x].end.writing[0]);
    DueRing(s.nodes[m].end);
  }

  lemma WritePairs(s: Sys, x: Id, m: Id)
    requires Enabled(s, DoWrite(x)) && m != x && PairHolds(s, x, m) && PairHolds(s, m, x)
    requires !Inert(s.nodes[x].end.writing[0].1) && RingOk(Due(s.nodes[m].end))
    ensures var s' := Next(s, DoWrite(x)); PairHolds(s', x, m) && PairHolds(s', m, x)
  {
    var s', nx, nm := Next(s, DoWrite(x)), s.nodes[x], s.nodes[m];
    var ps, qs := Pipe(nx, nm, x, m), Pipe(nm, nx, m, x);
    var ps' := if nx.end.writing[0].0 == m then ps + [nx.end.writing[0].1] else ps;
    WritePipe(s, x, m, ps');
    assert s'.nodes[x].end == nx.end.(writing := nx.end.writing[1..]) && s'.nodes[m] == nm;
    WriteBoth(x, m, nx.end, nm.end, ps, qs, ps');
    Hold(s', x, m, ps', qs);
    Hold(s', m, x, qs, ps');
  }

  lemma WriteKeeps(s: Sys, x: Id)
    requires Inv(s) && Enabled(s, DoWrite(x))
    ensures Inv(Next(s, DoWrite(x)))
  {
    WriteNode(s, x);
    forall m | x in s.members && m in s.members && m != x
      ensures PairHolds(Next(s, DoWrite(x)), x, m) && PairHolds(Next(s, DoWrite(x)), m, x)
    {
      assert PairHolds(s, x, m) && PairHolds(s, m, x);
      WriteReady(s, x, m);
      WritePairs(s, x, m);
    }
    OneNode(s, x, Next(s, DoWrite(x)));
  }

  // ----- Steps that change only the end's state -----

  function Ended(s: Sys, x: Id, e: End, minted: nat, nonce: nat): Sys
    requires x in s.nodes
  {
    WithEnd(s, x, e).(minted := minted, nonce := nonce)
  }

  lemma EndNode(s: Sys, x: Id, e: End, minted: nat, nonce: nat)
    requires Inv(s) && x in s.nodes && s.minted <= minted && EndOk(Ended(s, x, e, minted, nonce), x, e)
    requires forall k :: k in s.nodes[x].end.v.installed ==> k in e.v.installed
    ensures NodeOk(Ended(s, x, e, minted, nonce), x)
  {
    var s' := Ended(s, x, e, minted, nonce);
    assert NodeOk(s, x);
    var n := s.nodes[x];
    forall i | 0 <= i < |n.stream| ensures FrameOk(s', x, n.stream[i]) { assert FrameOk(s, x, n.stream[i]); }
    forall i | 0 <= i < |n.outbox| ensures OutOk(s', x, n.outbox[i]) { assert OutOk(s, x, n.outbox[i]); }
  }

  /** The pairs follow from what the change means to a host and to a member. */
  lemma EndPairs(s: Sys, x: Id, e: End, minted: nat, nonce: nat, m: Id)
    requires Inv(s) && x in s.members && m in s.members && m != x && x in s.nodes && m in s.nodes
    requires var nx, nm := s.nodes[x], s.nodes[m];
      && nx.read <= |nx.stream| && nm.read <= |nm.stream|
      && PairOk(x, m, e, nm.end, Pipe(nx, nm, x, m), Pipe(nm, nx, m, x))
      && PairOk(m, x, nm.end, e, Pipe(nm, nx, m, x), Pipe(nx, nm, x, m))
    ensures var s' := Ended(s, x, e, minted, nonce); PairHolds(s', x, m) && PairHolds(s', m, x)
  {
    var nx := s.nodes[x];
    var nx' := nx.(end := e);
    assert Pipe(nx', s.nodes[m], x, m) == Pipe(nx, s.nodes[m], x, m);
    assert Pipe(s.nodes[m], nx', m, x) == Pipe(s.nodes[m], nx, m, x);
  }

  // ----- Swap -----

  lemma SwapBoth(x: Id, m: Id, e: End, em: End, ps: seq<Payload>, qs: seq<Payload>)
    requires PairOk(x, m, e, em, ps, qs) && PairOk(m, x, em, e, qs, ps) && RingOk(Due(em)) && m != x
    requires e.swapTo.Some? && e.writing == [] && e.swapTo.value !in e.v.installed && e.v.hostId == x
    ensures PairOk(x, m, Swapped(e), em, ps, qs) && PairOk(m, x, em, Swapped(e), qs, ps)
  {
    HostSwaps(x, m, e, em, ps, qs);
    MemberOther(m, x, em, e, qs, ps, Swapped(e), ps);
  }

  lemma SwapKeeps(s: Sys, x: Id)
    requires Inv(s) && Enabled(s, DoSwap(x))
    ensures Inv(Next(s, DoSwap(x)))
  {
    var e := s.nodes[x].end;
    var e' := Swapped(e);
    assert NodeOk(s, x);
    InstallKeepsRing(e.v, e.swapTo.value);
    EndNode(s, x, e', s.minted, s.nonce);
    forall m | x in s.members && m in s.members && m != x
      ensures PairHolds(Next(s, DoSwap(x)), x, m) && PairHolds(Next(s, DoSwap(x)), m, x)
    {
      PairOpen(s, x, m);
      var nx, nm := s.nodes[x], s.nodes[m];
      DueRing(nm.end);
      SwapBoth(x, m, e, nm.end, Pipe(nx, nm, x, m), Pipe(nm, nx, m, x));
      EndPairs(s, x, e', s.minted, s.nonce, m);
    }
    OneNode(s, x, Next(s, DoSwap(x)));
  }

  // ----- Migration -----

  /** An end without a member that is its host: its old host has departed. */
  lemma BereftHostGone(s: Sys, x: Id)
    requires Inv(s) && x in s.nodes && Bereft(s.nodes[x].end)
    ensures s.nodes[x].end.v.hostId !in s.members
  {
    assert NodeOk(s, x);
  }

  /** Whatever a bereft end does to its own keys and host concerns no pair of members. */
  lemma BereftPairs(s: Sys, x: Id, e: End, m: Id)
    requires Inv(s) && x in s.members && m in s.members && m != x && Bereft(s.nodes[x].end)
    requires e == s.nodes[x].end.(v := e.v, hist := e.hist) && e.v.installed == s.nodes[x].end.v.installed
    requires e.hist.asked == s.nodes[x].end.hist.asked && e.hist.crossed == s.nodes[x].end.hist.crossed
    ensures var s' := Ended(s, x, e, s.minted, s.nonce); PairHolds(s', x, m) && PairHolds(s', m, x)
  {
    PairOpen(s, x, m);
    BereftHostGone(s, x);
    var nx, nm := s.nodes[x], s.nodes[m];
    HostOther(x, m, nx.end, nm.end, Pipe(nx, nm, x, m), Pipe(nm, nx, m, x), e);
    MemberOther(m, x, nm.end, nx.end, Pipe(nm, nx, m, x), Pipe(nx, nm, x, m), e, Pipe(nx, nm, x, m));
    EndPairs(s, x, e, s.minted, s.nonce, m);
  }

  lemma PromoteKeeps(s: Sys, x: Id)
    requires Inv(s) && Enabled(s, DoPromote(x))
    ensures Inv(Next(s, DoPromote(x)))
  {
    assert NodeOk(s, x);
    var e' := Promoted(s.nodes[x].end);
    EndNode(s, x, e', s.minted, s.nonce);
    forall m | x in s.members && m in s.members && m != x
      ensures PairHolds(Next(s, DoPromote(x)), x, m) && PairHolds(Next(s, DoPromote(x)), m, x)
    {
      BereftPairs(s, x, e', m);
    }
    OneNode(s, x, Next(s, DoPromote(x)));
  }

  lemma FollowKeeps(s: Sys, x: Id, host: Id)
    requires Inv(s) && Enabled(s, DoFollow(x, host))
    ensures Inv(Next(s, DoFollow(x, host)))
  {
    assert NodeOk(s, x);
    var e' := Followed(s.nodes[x].end, host);
    EndNode(s, x, e', s.minted, s.nonce);
    forall m | x in s.members && m in s.members && m != x
      ensures PairHolds(Next(s, DoFollow(x, host)), x, m) && PairHolds(Next(s, DoFollow(x, host)), m, x)
    {
      BereftPairs(s, x, e', m);
    }
    OneNode(s, x, Next(s, DoFollow(x, host)));
  }

  lemma RotateBoth(x: Id, m: Id, e: End, em: End, ps: seq<Payload>, qs: seq<Payload>, key: GroupKey)
    requires PairOk(x, m, e, em, ps, qs) && PairOk(m, x, em, e, qs, ps) && m != x && e.v.self == x
    ensures var e' := RotatedForMigration(e, key); PairOk(x, m, e', em, ps, qs) && PairOk(m, x, em, e', qs, ps)
  {
    var e' := RotatedForMigration(e, key);
    if IsHost(e) {
      HostOther(x, m, e, em, ps, qs, e');
      MemberOther(m, x, em, e, qs, ps, e', ps);
    }
  }

  lemma RotateEnd(s: Sys, x: Id, e: End, s': Sys)
    requires EndOk(s, x, e) && s' == s.(minted := s.minted + 1)
    ensures EndOk(s', x, RotatedForMigration(e, s.minted))
  {
    if IsHost(e) { InstallKeepsRing(e.v, s.minted); }
    forall i | 0 <= i < |e.writing| ensures WriteOk(s', x, e.writing[i]) { assert WriteOk(s, x, e.writing[i]); }
  }

  /** Whether an end is in good order depends on the session's bounds and members alone. */
  lemma EndOnly(s: Sys, x: Id, e: End, s': Sys)
    requires EndOk(s, x, e) && s' == s.(nodes := s'.nodes)
    ensures EndOk(s', x, e)
  {
    forall i | 0 <= i < |e.writing| ensures WriteOk(s', x, e.writing[i]) { assert WriteOk(s, x, e.writing[i]); }
  }

  lemma RotateKeeps(s: Sys, x: Id)
    requires Inv(s) && Enabled(s, DoRotate(x))
    ensures Inv(Next(s, DoRotate(x)))
  {
    var s' := Next(s, DoRotate(x));
    var e, e' := s.nodes[x].end, RotatedForMigration(s.nodes[x].end, s.minted);
    assert NodeOk(s, x);
    RotateEnd(s, x, e, s.(minted := s.minted + 1));
    EndOnly(s.(minted := s.minted + 1), x, e', s');
    EndNode(s, x, e', s.minted + 1, s.nonce);
    forall m | x in s.members && m in s.members && m != x ensures PairHolds(s', x, m) && PairHolds(s', m, x) {
      RotatePairs(s, x, m);
    }
    OneNode(s, x, s');
  }

  lemma RotatePairs(s: Sys, x: Id, m: Id)
    requires Inv(s) && Enabled(s, DoRotate(x)) && x in s.members && m in s.members && m != x
    ensures var s' := Next(s, DoRotate(x)); PairHolds(s', x, m) && PairHolds(s', m, x)
  {
    PairOpen(s, x, m);
    var nx, nm := s.nodes[x], s.nodes[m];
    RotateBoth(x, m, nx.end, nm.end, Pipe(nx, nm, x, m), Pipe(nm, nx, m, x), s.minted);
    EndPairs(s, x, RotatedForMigration(nx.end, s.minted), s.minted + 1, s.nonce, m);
  }

  // ----- Sealing, sending, asking -----

  lemma SealKeeps(s: Sys, x: Id)
    requires Inv(s) && Enabled(s, DoSeal(x))
    ensures Inv(Next(s, DoSeal(x)))
  {
    var s' := Next(s, DoSeal(x));
    assert NodeOk(s, x);
    var n, n' := s.nodes[x], s'.nodes[x];
    forall i | 0 <= i < |n.stream| ensures FrameOk(s', x, n'.stream[i]) { assert FrameOk(s, x, n.stream[i]); }
    forall i | 0 <= i < |n.outbox| ensures OutOk(s', x, n'.outbox[i]) { assert OutOk(s, x, n.outbox[i]); }
    forall m | x in s.members && m in s.members && m != x ensures PairHolds(s', x, m) && PairHolds(s', m, x) {
      PairOpen(s, x, m);
    }
    OneNode(s, x, s');
  }

  /** What sending adds to a pipe. */
  lemma SendPipe(s: Sys, x: Id, i: nat, to: Option<Id>, m: Id, extra: seq<Payload>)
    requires Enabled(s, DoSend(x, i, to)) && m in s.nodes && m != x
    requires s.nodes[m].read <= |s.nodes[m].stream| && s.nodes[x].read <= |s.nodes[x].stream|
    requires extra == if to == None || to.value == m then [Sealed(s.nodes[x].sealed[i], x)] else []
    ensures var nx, nm, nx' := s.nodes[x], s.nodes[m], Next(s, DoSend(x, i, to)).nodes[x];
      Pipe(nx', nm, x, m) == Pipe(nx, nm, x, m) + extra && Pipe(nm, nx', m, x) == Pipe(nm, nx, m, x)
  {
    var key := s.nodes[x].sealed[i];
    OutSnoc(s.nodes[x], s.nodes[m], x, m, if to == None then ToAll(key) else ToOne(to.value, Sealed(key, x)));
  }

  lemma SendBoth(x: Id, m: Id, ex: End, em: End, ps: seq<Payload>, qs: seq<Payload>, p: Payload)
    requires PairOk(x, m, ex, em, ps, qs) && PairOk(m, x, em, ex, qs, ps)
    requires p.Sealed? && p.key in ex.v.installed && p.sender == x
    ensures PairOk(x, m, ex, em, ps + [p], qs) && PairOk(m, x, em, ex, qs, ps + [p])
  {
    HostSends(x, m, ex, em, ps, qs, p.key);
    AsksSnoc(ps, p);
    MemberOther(m, x, em, ex, qs, ps, ex, ps + [p]);
  }

  lemma SendPairs(s: Sys, x: Id, i: nat, to: Option<Id>, m: Id)
    requires Enabled(s, DoSend(x, i, to)) && m != x && PairHolds(s, x, m) && PairHolds(s, m, x)
    requires s.nodes[x].sealed[i] in s.nodes[x].end.v.installed
    ensures var s' := Next(s, DoSend(x, i, to)); PairHolds(s', x, m) && PairHolds(s', m, x)
  {
    var s', nx, nm, p := Next(s, DoSend(x, i, to)), s.nodes[x], s.nodes[m], Sealed(s.nodes[x].sealed[i], x);
    var ps, qs := Pipe(nx, nm, x, m), Pipe(nm, nx, m, x);
    var extra := if to == None || to.value == m then [p] else [];
    SendPipe(s, x, i, to, m, extra);
    SendBoth(x, m, nx.end, nm.end, ps, qs, p);
    assert ps + [] == ps;
    Hold(s', x, m, ps + extra, qs);
    Hold(s', m, x, qs, ps + extra);
  }

  lemma SendKeeps(s: Sys, x: Id, i: nat, to: Option<Id>)
    requires Inv(s) && Enabled(s, DoSend(x, i, to))
    ensures Inv(Next(s, DoSend(x, i, to)))
  {
    var s' := Next(s, DoSend(x, i, to));
    assert NodeOk(s, x);
    var n, n' := s.nodes[x], s'.nodes[x];
    forall j | 0 <= j < |n.stream| ensures FrameOk(s', x, n'.stream[j]) { assert FrameOk(s, x, n.stream[j]); }
    forall j | 0 <= j < |n'.outbox| ensures OutOk(s', x, n'.outbox[j]) {
      if j < |n.outbox| { assert OutOk(s, x, n.outbox[j]); }
    }
    forall m | x in s.members && m in s.members && m != x ensures PairHolds(s', x, m) && PairHolds(s', m, x) {
      assert PairHolds(s, x, m) && PairHolds(s, m, x);
      SendPairs(s, x, i, to, m);
    }
    OneNode(s, x, s');
  }

  lemma AskBoth(x: Id, m: Id, e: End, em: End, ps: seq<Payload>, qs: seq<Payload>, nonce: nat)
    requires PairOk(x, m, e, em, ps, qs) && PairOk(m, x, em, e, qs, ps) && m != x
    requires MayAsk(e) && e.flight == None && !e.v.failed
    requires e.v.hostId == m ==> m !in e.hist.asked && m !in e.hist.crossed
    requires e.pairwise == map[] && (Due(e).hostPair.Some? ==> Due(e).hostPair.value.x != nonce)
    ensures var e' := Asked(e, nonce); PairOk(x, m, e', em, ps, qs) && PairOk(m, x, em, e', qs, ps)
  {
    var e' := Asked(e, nonce);
    HostOther(x, m, e, em, ps, qs, e');
    if e.v.hostId == m {
      MemberAsks(m, x, em, e, qs, ps, nonce);
    } else {
      MemberOther(m, x, em, e, qs, ps, e', ps);
    }
  }

  lemma AskKeeps(s: Sys, x: Id)
    requires Inv(s) && Enabled(s, DoAsk(x))
    ensures Inv(Next(s, DoAsk(x)))
  {
    assert NodeOk(s, x);
    var s', e, e' := Next(s, DoAsk(x)), s.nodes[x].end, Asked(s.nodes[x].end, s.nonce);
    EndNode(s, x, e', s.minted, s.nonce + 1);
    forall m | x in s.members && m in s.members && m != x ensures PairHolds(s', x, m) && PairHolds(s', m, x) {
      AskPairs(s, x, m);
    }
    OneNode(s, x, s');
  }

  lemma AskPairs(s: Sys, x: Id, m: Id)
    requires Inv(s) && Enabled(s, DoAsk(x)) && x in s.members && m in s.members && m != x
    ensures var s' := Next(s, DoAsk(x)); PairHolds(s', x, m) && PairHolds(s', m, x)
  {
    PairOpen(s, x, m);
    var nx, nm := s.nodes[x], s.nodes[m];
    AskBoth(x, m, nx.end, nm.end, Pipe(nx, nm, x, m), Pipe(nm, nx, m, x), s.nonce);
    EndPairs(s, x, Asked(nx.end, s.nonce), s.minted, s.nonce + 1, m);
  }

  lemma FlyBoth(x: Id, m: Id, e: End, em: End, ps: seq<Payload>, qs: seq<Payload>, ps': seq<Payload>)
    requires PairOk(x, m, e, em, ps, qs) && PairOk(m, x, em, e, qs, ps) && e.flight.Some?
    requires e.flight.value.0 == m ==> e.pairwise == map[]
    requires ps' == if e.flight.value.0 == m then ps + [RekeyPake1(e.flight.value.1)] else ps
    ensures var e' := e.(flight := None); PairOk(x, m, e', em, ps', qs) && PairOk(m, x, em, e', qs, ps')
  {
    var e' := e.(flight := None);
    if e.flight.value.0 == m {
      HostAsks(x, m, e, em, ps, qs, e', RekeyPake1(e.flight.value.1));
      MemberFlies(m, x, em, e, qs, ps);
    } else {
      HostOther(x, m, e, em, ps, qs, e');
      MemberOther(m, x, em, e, qs, ps, e', ps);
    }
  }

  lemma FlyPipe(s: Sys, x: Id, m: Id, ps': seq<Payload>)
    requires Enabled(s, DoFly(x)) && m in s.nodes && m != x
    requires s.nodes[m].read <= |s.nodes[m].stream| && s.nodes[x].read <= |s.nodes[x].stream|
    requires var (to, nonce) := s.nodes[x].end.flight.value; var ps := Pipe(s.nodes[x], s.nodes[m], x, m);
      ps' == if to == m then ps + [RekeyPake1(nonce)] else ps
    ensures var nx, nm, nx' := s.nodes[x], s.nodes[m], Next(s, DoFly(x)).nodes[x];
      Pipe(nx', nm, x, m) == ps' && Pipe(nm, nx', m, x) == Pipe(nm, nx, m, x)
  {
    var (to, nonce) := s.nodes[x].end.flight.value;
    OutSnoc(s.nodes[x], s.nodes[m], x, m, ToOne(to, RekeyPake1(nonce)));
  }

  lemma FlyPairs(s: Sys, x: Id, m: Id)
    requires Enabled(s, DoFly(x)) && m != x && PairHolds(s, x, m) && PairHolds(s, m, x)
    requires s.nodes[x].end.flight.value.0 == m ==> s.nodes[x].end.pairwise == map[]
    ensures var s' := Next(s, DoFly(x)); PairHolds(s', x, m) && PairHolds(s', m, x)
  {
    var s', nx, nm := Next(s, DoFly(x)), s.nodes[x], s.nodes[m];
    var (to, nonce) := nx.end.flight.value;
    var ps, qs := Pipe(nx, nm, x, m), Pipe(nm, nx, m, x);
    var ps' := if to == m then ps + [RekeyPake1(nonce)] else ps;
    FlyPipe(s, x, m, ps');
    FlyBoth(x, m, nx.end, nm.end, ps, qs, ps');
    Hold(s', x, m, ps', qs);
    Hold(s', m, x, qs, ps');
  }

  /** Whoever asks a member has that member for its host, so it is not host itself. */
  lemma FlyHost(s: Sys, x: Id, m: Id)
    requires Inv(s) && x in s.members && m in s.members && m != x && x in s.nodes
    requires s.nodes[x].end.flight.Some? && s.nodes[x].end.flight.value.0 == m
    ensures s.nodes[x].end.pairwise == map[]
  {
    PairOpen(s, x, m);
    assert FlightTo(s.nodes[x].end, m) != [];
  }

  lemma FlyKeeps(s: Sys, x: Id)
    requires Inv(s) && Enabled(s, DoFly(x))
    ensures Inv(Next(s, DoFly(x)))
  {
    var s' := Next(s, DoFly(x));
    assert NodeOk(s, x);
    var n, n' := s.nodes[x], s'.nodes[x];
    forall j | 0 <= j < |n.stream| ensures FrameOk(s', x, n'.stream[j]) { assert FrameOk(s, x, n.stream[j]); }
    forall j | 0 <= j < |n'.outbox| ensures OutOk(s', x, n'.outbox[j]) {
      if j < |n.outbox| { assert OutOk(s, x, n.outbox[j]); }
    }
    forall m | x in s.members && m in s.members && m != x ensures PairHolds(s', x, m) && PairHolds(s', m, x) {
      assert PairHolds(s, x, m) && PairHolds(s, m, x);
      if s.nodes[x].end.flight.value.0 == m { FlyHost(s, x, m); }
      FlyPairs(s, x, m);
    }
    OneNode(s, x, s');
  }

  // ----- The second section of a key message -----

  /** Finishing what was begun does not change what the end comes to. */
  lemma FinishPairs(s: Sys, x: Id, e: End, m: Id)
    requires Inv(s) && x in s.members && m in s.members && m != x && s.nodes[x].end.commit.Some?
    requires e == s.nodes[x].end.(v := e.v, commit := e.commit, hist := e.hist) && Due(e) == Due(s.nodes[x].end)
    requires e.v.hostId == s.nodes[x].end.v.hostId
    requires forall k :: k in s.nodes[x].end.v.installed ==> k in e.v.installed
    requires e.hist.asked == s.nodes[x].end.hist.asked && e.hist.crossed == s.nodes[x].end.hist.crossed
    ensures var s' := Ended(s, x, e, s.minted, s.nonce); PairHolds(s', x, m) && PairHolds(s', m, x)
  {
    PairOpen(s, x, m);
    var nx, nm := s.nodes[x], s.nodes[m];
    HostOther(x, m, nx.end, nm.end, Pipe(nx, nm, x, m), Pipe(nm, nx, m, x), e);
    MemberOther(m, x, nm.end, nx.end, Pipe(nm, nx, m, x), Pipe(nx, nm, x, m), e, Pipe(nx, nm, x, m));
    EndPairs(s, x, e, s.minted, s.nonce, m);
  }

  lemma DeriveKeeps(s: Sys, x: Id)
    requires Inv(s) && Enabled(s, DoDerive(x))
    ensures Inv(Next(s, DoDerive(x)))
  {
    assert NodeOk(s, x);
    var s', e' := Next(s, DoDerive(x)), Derived(s.nodes[x].end);
    EndNode(s, x, e', s.minted, s.nonce);
    forall m | x in s.members && m in s.members && m != x ensures PairHolds(s', x, m) && PairHolds(s', m, x) {
      FinishPairs(s, x, e', m);
    }
    OneNode(s, x, s');
  }

  lemma CommitKeeps(s: Sys, x: Id)
    requires Inv(s) && Enabled(s, DoCommit(x))
    ensures Inv(Next(s, DoCommit(x)))
  {
    assert NodeOk(s, x);
    var s', e, e' := Next(s, DoCommit(x)), s.nodes[x].end, Committed(s.nodes[x].end);
    DueRing(e);
    EndNode(s, x, e', s.minted, s.nonce);
    forall m | x in s.members && m in s.members && m != x ensures PairHolds(s', x, m) && PairHolds(s', m, x) {
      FinishPairs(s, x, e', m);
    }
    OneNode(s, x, s');
  }

  // ----- Read -----

  /** An end in good order reads `f` and becomes `e'`. */
  ghost predicate ReadStep(s: Sys, x: Id, e: End, f: Frame, role: Role, outs: seq<(Id, Payload)>, e': End, s': Sys) {
    && EndOk(s, x, e) && FrameOk(s, x, f) && Idle(e) && !e.v.failed
    && e' == Receive(e, f, s.minted, s.nonce, role, outs)
    && (Rotates(e, f) ==> Covers(outs, e.pairwise - {f.who}, s.minted))
    && s'.members == s.members && s'.nextId == s.nextId && s'.nonce == s.nonce + 1
    && s'.minted == if Rotates(e, f) then s.minted + 1 else s.minted
  }

  /** The bounds after reading: fresh nonces, and a fresh key if the end rotates. */
  predicate Onward(s: Sys, s': Sys) {
    s'.members == s.members && s'.nextId == s.nextId && s.nonce < s'.nonce && s.minted <= s'.minted
  }

  lemma EndOnward(s: Sys, x: Id, e: End, s': Sys)
    requires EndOk(s, x, e) && Onward(s, s')
    ensures EndOk(s', x, e)
  {
    forall i | 0 <= i < |e.writing| ensures WriteOk(s', x, e.writing[i]) { assert WriteOk(s, x, e.writing[i]); }
  }

  /** A joiner takes in a payload of its host. */
  lemma JoinReads(s: Sys, x: Id, e: End, p: Payload, e': End)
    requires EndOk(s, x, e) && !e.v.keyed && !e.v.failed && PayloadOk(s, p)
    requires e' == e.(v := AbsorbJoining(e.v, p), hist := e'.hist)
    requires e'.hist == if e'.v.keyed then e.hist.(seat := e'.v.role, got := e'.hist.got) else e.hist
    ensures EndOk(s, x, e')
  {
    AbsorbKeepsRing(e.v, p);
  }

  /** A keyed end checks a payload of its host. */
  lemma CheckReads(s: Sys, x: Id, e: End, p: Payload)
    requires EndOk(s, x, e) && e.v.keyed && Idle(e) && PayloadOk(s, p) && e.v.role != ROLE_HOST
    ensures EndOk(s, x, e.(commit := Decides(e.v, p)))
  {
  }

  lemma LeftReads(s: Sys, x: Id, e: End, who: Id, outs: seq<(Id, Payload)>, s': Sys)
    requires EndOk(s, x, e) && e.v.keyed && Idle(e) && who !in s.members && who < s.nextId
    requires Onward(s, s') && (Rotates(e, ParticipantLeft(who)) ==> s.minted < s'.minted && Covers(outs, e.pairwise - {who}, s.minted))
    ensures EndOk(s', x, HandleLeft(e, who, s.minted, outs))
  {
    EndOnward(s, x, e, s');
    if Rotates(e, ParticipantLeft(who)) {
      forall i | 0 <= i < |outs| ensures WriteOk(s', x, outs[i]) {
        assert outs[i] == RekeyFor(e.pairwise - {who}, s.minted, outs[i].0);
      }
    }
  }

  lemma AnswerReads(s: Sys, x: Id, e: End, from: Id, p: Payload, y: nat, role: Role)
    requires EndOk(s, x, e) && e.v.keyed && Idle(e) && from < s.nextId && from != x && Answers(e, p)
    ensures EndOk(s, x, HandlePayload(e, from, p, y, role))
  {
    var e' := HandlePayload(e, from, p, y, role);
    assert e.v.groupKey in e.v.installed;
    assert WriteOk(s, x, e'.writing[0]) && WriteOk(s, x, e'.writing[1]);
  }

  lemma PayloadReads(s: Sys, x: Id, e: End, from: Id, p: Payload, y: nat, role: Role)
    requires EndOk(s, x, e) && e.v.keyed && Idle(e) && from < s.nextId && PayloadOk(s, p) && (from == x ==> p.Sealed?)
    ensures EndOk(s, x, HandlePayload(e, from, p, y, role))
  {
    if Answers(e, p) {
      AnswerReads(s, x, e, from, p, y, role);
    } else if from == e.v.hostId && from != x && !p.Pake1? && !p.RekeyPake1? {
      CheckReads(s, x, e, p);
    }
  }

  lemma ReadEnd(s: Sys, x: Id, e: End, f: Frame, role: Role, outs: seq<(Id, Payload)>, e': End, s': Sys)
    requires ReadStep(s, x, e, f, role, outs, e', s')
    ensures EndOk(s', x, e')
  {
    assert Onward(s, s');
    if e.v.keyed && f.ParticipantLeft? {
      LeftReads(s, x, e, f.who, outs, s');
    } else {
      if e.v.keyed && Sender(f).Some? {
        PayloadReads(s, x, e, Sender(f).value, Carried(f), s.nonce, role);
      } else if !e.v.keyed && f.Direct? && f.from == e.v.hostId {
        JoinReads(s, x, e, f.payload, e');
      }
      EndOnward(s, x, e', s');
    }
  }

  lemma ReadGrows(e: End, f: Frame, minted: nat, y: nat, role: Role, outs: seq<(Id, Payload)>)
    requires RingOk(e.v)
    ensures forall k :: k in e.v.installed ==> k in Receive(e, f, minted, y, role, outs).v.installed
  {
  }

  lemma ReadIsStep(s: Sys, x: Id, role: Role, outs: seq<(Id, Payload)>)
    requires Inv(s) && Enabled(s, DoRead(x, role, outs))
    ensures var s' := Next(s, DoRead(x, role, outs));
      ReadStep(s, x, s.nodes[x].end, NextFrame(s, x), role, outs, s'.nodes[x].end, s')
  {
    assert NodeOk(s, x);
    assert FrameOk(s, x, NextFrame(s, x));
  }

  lemma ReadNode(s: Sys, x: Id, role: Role, outs: seq<(Id, Payload)>)
    requires Inv(s) && Enabled(s, DoRead(x, role, outs))
    ensures NodeOk(Next(s, DoRead(x, role, outs)), x)
  {
    var s', e, f := Next(s, DoRead(x, role, outs)), s.nodes[x].end, NextFrame(s, x);
    ReadIsStep(s, x, role, outs);
    ReadEnd(s, x, e, f, role, outs, s'.nodes[x].end, s');
    ReadGrows(e, f, s.minted, s.nonce, role, outs);
    ReadFrames(s, x, role, outs);
  }

  lemma ReadFrames(s: Sys, x: Id, role: Role, outs: seq<(Id, Payload)>)
    requires Inv(s) && Enabled(s, DoRead(x, role, outs))
    ensures var s' := Next(s, DoRead(x, role, outs));
      && (forall i :: 0 <= i < |s'.nodes[x].stream| ==> FrameOk(s', x, s'.nodes[x].stream[i]))
      && (forall i :: 0 <= i < |s'.nodes[x].outbox| ==> OutOk(s', x, s'.nodes[x].outbox[i]))
      && (forall i :: 0 <= i < |s.nodes[x].outbox| && s.nodes[x].outbox[i].ToAll? ==> s.nodes[x].outbox[i].key in s.nodes[x].end.v.installed)
      && (forall i :: 0 <= i < |s.nodes[x].sealed| ==> s.nodes[x].sealed[i] in s.nodes[x].end.v.installed)
  {
    assert NodeOk(s, x);
    var s', n := Next(s, DoRead(x, role, outs)), s.nodes[x];
    forall i | 0 <= i < |n.stream| ensures FrameOk(s', x, n.stream[i]) { assert FrameOk(s, x, n.stream[i]); }
    forall i | 0 <= i < |n.outbox| ensures OutOk(s', x, n.outbox[i]) { assert OutOk(s, x, n.outbox[i]); }
  }

  lemma ReadPipe(s: Sys, x: Id, role: Role, outs: seq<(Id, Payload)>, m: Id)
    requires Enabled(s, DoRead(x, role, outs)) && m in s.nodes && m != x && s.nodes[m].read <= |s.nodes[m].stream|
    ensures var nx, nm, nx' := s.nodes[x], s.nodes[m], Next(s, DoRead(x, role, outs)).nodes[x];
      && Pipe(nm, nx, m, x) == PayloadFrom(NextFrame(s, x), m) + Pipe(nm, nx', m, x)
      && Pipe(nx', nm, x, m) == Pipe(nx, nm, x, m)
  {
    var nx, nx' := s.nodes[x], Next(s, DoRead(x, role, outs)).nodes[x];
    assert Unread(nx)[1..] == Unread(nx');
    FromCons(Unread(nx), m);
  }

  lemma ReadPairs(s: Sys, x: Id, role: Role, outs: seq<(Id, Payload)>, m: Id)
    requires Enabled(s, DoRead(x, role, outs)) && m != x && PairHolds(s, x, m) && PairHolds(s, m, x)
    requires Reader(x, s.nodes[x].end) && s.nodes[m].end.v.self == m && RingOk(s.nodes[m].end.v)
    requires FrameOk(s, x, NextFrame(s, x)) && m in s.members
    ensures var s' := Next(s, DoRead(x, role, outs)); PairHolds(s', x, m) && PairHolds(s', m, x)
  {
    ReadPipe(s, x, role, outs, m);
    var s' := Next(s, DoRead(x, role, outs));
    var nx, nm, nx', f := s.nodes[x], s.nodes[m], s'.nodes[x], NextFrame(s, x);
    var ps, qs := Pipe(nx', nm, x, m), Pipe(nm, nx', m, x);
    ReadHost(x, m, nx.end, nm.end, f, ps, qs, s.minted, s.nonce, role, outs);
    Hold(s', x, m, ps, qs);
    ReadMember(m, x, nm.end, nx.end, f, qs, ps, s.minted, s.nonce, role, outs);
    Hold(s', m, x, qs, ps);
  }

  lemma ReadReady(s: Sys, x: Id, m: Id)
    requires Inv(s) && CanRead(s, x) && m in s.members
    ensures Reader(x, s.nodes[x].end) && FrameOk(s, x, NextFrame(s, x))
    ensures m in s.nodes && s.nodes[m].end.v.self == m && RingOk(s.nodes[m].end.v)
  {
    assert NodeOk(s, x) && NodeOk(s, m);
  }

  lemma ReadKeeps(s: Sys, x: Id, role: Role, outs: seq<(Id, Payload)>)
    requires Inv(s) && Enabled(s, DoRead(x, role, outs))
    ensures Inv(Next(s, DoRead(x, role, outs)))
  {
    ReadNode(s, x, role, outs);
    var s' := Next(s, DoRead(x, role, outs));
    forall m | x in s.members && m in s.members && m != x ensures PairHolds(s', x, m) && PairHolds(s', m, x) {
      assert PairHolds(s, x, m) && PairHolds(s, m, x);
      ReadReady(s, x, m);
      ReadPairs(s, x, role, outs, m);
    }
    OneNode(s, x, s');
  }
}
