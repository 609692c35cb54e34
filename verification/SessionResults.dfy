/** What a session guarantees in every state it can reach: agreement on the group key, frames that
    open, departed ends that stay locked out, and roles that stay put. */
module SessionResults {
  import opened Wire
  import opened Ends
  import opened Session
  import opened SessionPipes
  import opened KeyAgreement
  import opened SessionInv
  import opened SessionReads
  import opened SessionRuns

  ghost predicate Pair(s: Sys, h: Id, m: Id) {
    && h in s.members && m in s.members && h != m && h in s.nodes && m in s.nodes
    && s.nodes[h].read <= |s.nodes[h].stream| && s.nodes[m].read <= |s.nodes[m].stream|
  }

  /** All that `h` has sent or is about to send to `m`. */
  ghost function OnTheWay(s: Sys, h: Id, m: Id): seq<Payload>
    requires Pair(s, h, m)
  {
    Coming(m, s.nodes[h].end, Pipe(s.nodes[h], s.nodes[m], h, m))
  }

  // ----- First flights that cross a reply -----

  /** At step `j` the routing goroutine of `m` sends its first flight to `h` while the read goroutine
      is between the check and the commit of the reply to an earlier one. */
  ghost predicate CrossesAt(ss: seq<Sys>, steps: seq<Step>, j: nat, m: Id, h: Id)
    requires |ss| == |steps| + 1 && j < |steps|
  {
    steps[j] == DoAsk(m) && m in ss[j].nodes && ss[j].nodes[m].end.v.hostId == h && Crossing(ss[j].nodes[m].end)
  }

  ghost predicate Crossed(ss: seq<Sys>, steps: seq<Step>, i: nat, m: Id, h: Id)
    requires |ss| == |steps| + 1 && i < |ss|
  {
    exists j :: 0 <= j < i && CrossesAt(ss, steps, j, m, h)
  }

  lemma CrossedStep(s: Sys, a: Step, m: Id, h: Id)
    requires Inv(s) && Enabled(s, a) && m in Next(s, a).nodes
    ensures h in Next(s, a).nodes[m].end.hist.crossed <==>
      m in s.nodes && (h in s.nodes[m].end.hist.crossed || (a == DoAsk(m) && s.nodes[m].end.v.hostId == h && Crossing(s.nodes[m].end)))
  {
    if m in s.nodes {
      if Actor(a) == Some(m) {
        ActorChanged(s, a);
        if a.DoRead? { ReaderChanged(s, a); } else { CrossedOther(s, a, h); }
      } else {
        OthersUnchanged(s, a, m);
      }
    }
  }

  lemma CrossedOther(s: Sys, a: Step, h: Id)
    requires Enabled(s, a) && Actor(a).Some? && !a.DoRead?
    ensures var e := s.nodes[Actor(a).value].end;
      h in EndAfter(s, a).hist.crossed <==> h in e.hist.crossed || (a.DoAsk? && e.v.hostId == h && Crossing(e))
  {
  }

  /** The history variable says what it should. */
  lemma {:induction false} CrossedExactly(ss: seq<Sys>, steps: seq<Step>, i: nat, m: Id, h: Id)
    requires Run(ss, steps) && i < |ss| && m in ss[i].nodes
    ensures h in ss[i].nodes[m].end.hist.crossed <==> Crossed(ss, steps, i, m, h)
  {
    if i > 0 {
      RunStep(ss, steps, i - 1);
      CrossedStep(ss[i - 1], steps[i - 1], m, h);
      if m in ss[i - 1].nodes { CrossedExactly(ss, steps, i - 1, m, h); } else { NotCrossedBefore(ss, steps, i - 1, m, h); }
      CrossedMore(ss, steps, i - 1, m, h);
    }
  }

  lemma CrossedMore(ss: seq<Sys>, steps: seq<Step>, i: nat, m: Id, h: Id)
    requires |ss| == |steps| + 1 && i < |steps|
    ensures Crossed(ss, steps, i + 1, m, h) <==> Crossed(ss, steps, i, m, h) || CrossesAt(ss, steps, i, m, h)
  {
  }

  /** An end that has not joined yet has crossed nothing. */
  lemma {:induction false} NotCrossedBefore(ss: seq<Sys>, steps: seq<Step>, i: nat, m: Id, h: Id)
    requires Run(ss, steps) && i < |ss| && m !in ss[i].nodes
    ensures !Crossed(ss, steps, i, m, h)
  {
    if i > 0 {
      RunStep(ss, steps, i - 1);
      StepLater(ss[i - 1], steps[i - 1]);
      NotCrossedBefore(ss, steps, i - 1, m, h);
      CrossedMore(ss, steps, i - 1, m, h);
    }
  }

  // ----- Agreement -----

  /** What follows from the pair invariant alone. */
  lemma PairAgrees(h: Id, m: Id, eh: End, em: End, ps: seq<Payload>, qs: seq<Payload>)
    requires PairOk(h, m, eh, em, ps, qs) && m in eh.pairwise
    ensures var w := AbsorbAll(Due(em), Coming(m, eh, ps));
      && em.v.hostId == h
      && (h !in em.hist.crossed ==> w.keyed && w.groupKey == Target(eh))
      && (h in em.hist.crossed ==> w == Due(em))
      && (w.hostPair == Some(eh.pairwise[m]) <==> h !in em.hist.crossed)
  {
    if h in em.hist.crossed { DeafAbsorbsAll(Due(em), Coming(m, eh, ps), em.hist.asked[h]); }
  }

  lemma {:induction false} DeafAbsorbsAll(v: KeyView, ps: seq<Payload>, x: nat)
    requires v.keyed && v.rekeyNonce == None && (v.hostPair.Some? ==> v.hostPair.value.x != x) && WrapsWith(ps, x)
    ensures AbsorbAll(v, ps) == v
  {
    if ps != [] {
      DeafAbsorbsAll(v, ps[..|ps| - 1], x);
      DeafAbsorbs(v, ps[|ps| - 1], x);
    }
  }

  /** Whoever the host has answered follows that host. Once it has taken in what is on its way it
      shares the host's pairwise key if and only if its first flight did not cross the reply to an
      earlier one; then it also has the host's group key, and otherwise it takes in nothing. This
      covers members keyed at the join, after a departure and after a migration alike. */
  lemma HostAndMemberAgree(ss: seq<Sys>, steps: seq<Step>, i: nat, h: Id, m: Id)
    requires Run(ss, steps) && i < |ss| && Pair(ss[i], h, m) && m in ss[i].nodes[h].end.pairwise
    ensures var eh, em := ss[i].nodes[h].end, ss[i].nodes[m].end;
      var w := AbsorbAll(Due(em), OnTheWay(ss[i], h, m));
      && em.v.hostId == h
      && (w.hostPair == Some(eh.pairwise[m]) <==> !Crossed(ss, steps, i, m, h))
      && (!Crossed(ss, steps, i, m, h) ==> w.keyed && w.groupKey == Target(eh))
      && (Crossed(ss, steps, i, m, h) ==> w == Due(em))
  {
    RunKeeps(ss, steps, i);
    CrossedExactly(ss, steps, i, m, h);
    assert PairHolds(ss[i], h, m);
    var nh, nm := ss[i].nodes[h], ss[i].nodes[m];
    PairAgrees(h, m, nh.end, nm.end, Pipe(nh, nm, h, m), Pipe(nm, nh, m, h));
  }

  /** Nothing concerning keys is under way between the two. */
  ghost predicate AllTakenIn(s: Sys, h: Id, m: Id) {
    Pair(s, h, m) && Silent(OnTheWay(s, h, m)) && s.nodes[h].end.swapTo == None && s.nodes[m].end.commit == None
  }

  /** With nothing under way, an answered member has the host's pairwise key now if and only if its
      flight did not cross, and then its group key too. */
  lemma SettledAgree(ss: seq<Sys>, steps: seq<Step>, i: nat, h: Id, m: Id)
    requires Run(ss, steps) && i < |ss| && AllTakenIn(ss[i], h, m) && m in ss[i].nodes[h].end.pairwise
    ensures var eh, em := ss[i].nodes[h].end, ss[i].nodes[m].end;
      && (em.v.hostPair == Some(eh.pairwise[m]) <==> !Crossed(ss, steps, i, m, h))
      && (!Crossed(ss, steps, i, m, h) ==> em.v.keyed && em.v.groupKey == eh.v.groupKey)
  {
    HostAndMemberAgree(ss, steps, i, h, m);
    AbsorbSilent(ss[i].nodes[m].end.v, OnTheWay(ss[i], h, m));
  }

  /** Any two ends that one host has answered, whose flights did not cross and to which nothing is on
      its way, share its key: each opens what the other seals. */
  lemma AnsweredMembersShareKey(ss: seq<Sys>, steps: seq<Step>, i: nat, h: Id, m: Id, n: Id)
    requires Run(ss, steps) && i < |ss| && AllTakenIn(ss[i], h, m) && AllTakenIn(ss[i], h, n)
    requires m in ss[i].nodes[h].end.pairwise && n in ss[i].nodes[h].end.pairwise
    requires !Crossed(ss, steps, i, m, h) && !Crossed(ss, steps, i, n, h)
    ensures var vm, vn := ss[i].nodes[m].end.v, ss[i].nodes[n].end.v;
      Opens(vm, vn.groupKey) && Opens(vn, vm.groupKey)
  {
    SettledAgree(ss, steps, i, h, m);
    SettledAgree(ss, steps, i, h, n);
  }

  /** What a member makes of the next frame is what agreement says: it comes to absorb the payload of
      the host it has at the check, and of nobody else. */
  lemma MemberAbsorbsItsHost(ss: seq<Sys>, steps: seq<Step>, i: nat, m: Id)
    requires Run(ss, steps) && i < |steps| && steps[i].DoRead? && steps[i].x == m
    requires m in ss[i].nodes && ss[i].nodes[m].end.v.role != ROLE_HOST
    ensures CanRead(ss[i], m) && m in ss[i + 1].nodes
    ensures var v := ss[i].nodes[m].end.v;
      Due(ss[i + 1].nodes[m].end) == AbsorbAll(v, PayloadFrom(NextFrame(ss[i], m), v.hostId))
  {
    RunStep(ss, steps, i);
    ActorChanged(ss[i], steps[i]);
    ReadsAsMember(ss[i], m);
    var e, f := ss[i].nodes[m].end, NextFrame(ss[i], m);
    ReceiveDue(e, f, ss[i].minted, ss[i].nonce, steps[i].role, steps[i].outs);
    if Sender(f) == Some(e.v.hostId) {
      AbsorbOne(e.v, Carried(f));
      if Inert(Carried(f)) { AbsorbSilent(e.v, [Carried(f)]); }
    }
  }

  /** The steps that finish a key message lead exactly there, if the routing goroutine does nothing in
      between; whatever it does, the commit goes ahead. */
  lemma CommitGoesAhead(ss: seq<Sys>, steps: seq<Step>, i: nat, m: Id)
    requires Run(ss, steps) && i < |steps| && (steps[i] == DoDerive(m) || steps[i] == DoCommit(m))
    ensures m in ss[i].nodes && m in ss[i + 1].nodes && Due(ss[i + 1].nodes[m].end) == Due(ss[i].nodes[m].end)
    ensures steps[i] == DoCommit(m) ==> ss[i + 1].nodes[m].end.v == Due(ss[i].nodes[m].end)
  {
    RunStep(ss, steps, i);
    ActorChanged(ss[i], steps[i]);
  }

  lemma ReadsAsMember(s: Sys, m: Id)
    requires Inv(s) && CanRead(s, m) && s.nodes[m].end.v.role != ROLE_HOST
    ensures var e, f := s.nodes[m].end, NextFrame(s, m);
      e.v.hostId != e.v.self && (f.Broadcast? ==> f.payload.Sealed?) && !f.SessionClosed?
  {
    assert NodeOk(s, m);
    assert FrameOk(s, m, NextFrame(s, m));
  }

  lemma AbsorbOne(v: KeyView, p: Payload)
    ensures AbsorbAll(v, [p]) == Absorb(v, p)
  {
    AbsorbSnoc(v, [], p);
    assert [] + [p] == [p];
  }

  // ----- Frames that open -----

  lemma PipeTail(nh: Node, nm: Node, h: Id, m: Id, p: Payload) returns (rest: seq<Payload>)
    requires nm.read < |nm.stream| && PayloadFrom(nm.stream[nm.read], h) == [p]
    ensures Pipe(nh, nm, h, m) == [p] + rest
  {
    FromCons(Unread(nm), h);
    rest := From(Unread(nm)[1..], h) + To(nh.outbox, h, m);
  }

  lemma HasRing(s: Sys, x: Id)
    requires Inv(s) && x in s.nodes
    ensures RingOk(s.nodes[x].end.v)
  {
    assert NodeOk(s, x);
  }

  /** The next frame a member reads was sealed by its host under a key the host has used since it
      granted one, and the grant has been read: the member has that key, and opens the frame
      unless eight newer keys have been installed over it. */
  lemma HostFramesOpen(ss: seq<Sys>, steps: seq<Step>, i: nat, h: Id, m: Id, key: GroupKey)
    requires Run(ss, steps) && i < |ss| && Pair(ss[i], h, m) && m in ss[i].nodes[h].end.pairwise
    requires CanRead(ss[i], m) && PayloadFrom(NextFrame(ss[i], m), h) == [Sealed(key, h)]
    requires AnsweredOk(ss[i].nodes[h].end, m) && key in Since(ss[i].nodes[h].end, m)
    requires Granted(ss[i].nodes[h].end, m) in ss[i].nodes[m].end.v.installed && !Crossed(ss, steps, i, m, h)
    ensures var v := ss[i].nodes[m].end.v;
      key in v.installed && (Opens(v, key) <==> key in LastNine(v.installed))
  {
    RunKeeps(ss, steps, i);
    CrossedExactly(ss, steps, i, m, h);
    var s := ss[i];
    assert PairHolds(s, h, m);
    var nh, nm := s.nodes[h], s.nodes[m];
    var rest := PipeTail(nh, nm, h, m, Sealed(key, h));
    HasRing(s, m);
    SealedKeyHeld(h, m, nh.end, nm.end, key, rest, Pipe(nm, nh, m, h));
    OpensExactly(nm.end.v, key);
  }

  // ----- Keys and who minted them -----

  ghost predicate MintedBy(s: Sys, x: Id)
    requires x in s.nodes
  {
    var e := s.nodes[x].end;
    forall k :: k in e.hist.minted ==> k < s.minted && (k in e.v.installed || e.swapTo == Some(k))
  }

  ghost predicate Apart(s: Sys, x: Id, y: Id)
    requires x in s.nodes && y in s.nodes
  {
    forall k :: k in s.nodes[x].end.hist.minted ==> k !in s.nodes[y].end.hist.minted
  }

  ghost predicate Minters(s: Sys) {
    && (forall x {:trigger MintedBy(s, x)} :: x in s.nodes ==> MintedBy(s, x))
    && (forall x, y {:trigger Apart(s, x, y)} :: x in s.nodes && y in s.nodes && x != y ==> Apart(s, x, y))
  }

  /** What one end's step does to the keys it has minted and installed. */
  lemma ActorKeys(s: Sys, a: Step)
    requires Inv(s) && Enabled(s, a) && Actor(a).Some?
    ensures var e, e' := s.nodes[Actor(a).value].end, EndAfter(s, a);
      && (forall k :: k in e.v.installed ==> k in e'.v.installed)
      && (forall k :: k in e'.hist.minted ==> k in e.hist.minted || (k == s.minted && Next(s, a).minted == s.minted + 1))
      && (e.swapTo.Some? ==> e'.swapTo == e.swapTo || e.swapTo.value in e'.v.installed)
      && (forall k :: k in e'.hist.minted && k !in e.hist.minted ==> k in e'.v.installed || e'.swapTo == Some(k))
  {
    assert NodeOk(s, Actor(a).value);
    if a.DoRead? {
      ReaderChanged(s, a);
    } else {
      OtherKeys(s, a);
    }
  }

  lemma OtherKeys(s: Sys, a: Step)
    requires Enabled(s, a) && Actor(a).Some? && !a.DoRead? && KeysOk(s, s.nodes[Actor(a).value].end)
    ensures var e, e' := s.nodes[Actor(a).value].end, EndAfter(s, a);
      && (forall k :: k in e.v.installed ==> k in e'.v.installed)
      && (forall k :: k in e'.hist.minted ==> k in e.hist.minted || (k == s.minted && Next(s, a).minted == s.minted + 1))
      && (e.swapTo.Some? ==> e'.swapTo == e.swapTo || e.swapTo.value in e'.v.installed)
      && (forall k :: k in e'.hist.minted && k !in e.hist.minted ==> k in e'.v.installed || e'.swapTo == Some(k))
  {
  }

  lemma MintedStep(s: Sys, a: Step, x: Id)
    requires Inv(s) && Minters(s) && Enabled(s, a) && x in Next(s, a).nodes
    ensures MintedBy(Next(s, a), x)
  {
    StepLater(s, a);
    if x in s.nodes {
      assert MintedBy(s, x);
      if Actor(a) == Some(x) {
        ActorKeys(s, a);
        ActorChanged(s, a);
      } else {
        OthersUnchanged(s, a, x);
      }
    }
  }

  /** A step adds to what an end has minted only the key that is fresh now. */
  lemma MintsFresh(s: Sys, a: Step, x: Id, k: GroupKey)
    requires Inv(s) && Enabled(s, a) && x in s.nodes && x in Next(s, a).nodes
    requires k in Next(s, a).nodes[x].end.hist.minted
    ensures k in s.nodes[x].end.hist.minted || (k == s.minted && Actor(a) == Some(x))
  {
    if Actor(a) == Some(x) {
      ActorKeys(s, a);
      ActorChanged(s, a);
    } else {
      OthersUnchanged(s, a, x);
    }
  }

  lemma ApartStep(s: Sys, a: Step, x: Id, y: Id)
    requires Inv(s) && Minters(s) && Enabled(s, a) && x in s.nodes && y in s.nodes && x != y
    ensures x in Next(s, a).nodes && y in Next(s, a).nodes && Apart(Next(s, a), x, y)
  {
    StepLater(s, a);
    var s' := Next(s, a);
    assert Apart(s, x, y) && MintedBy(s, x) && MintedBy(s, y);
    forall k | k in s'.nodes[x].end.hist.minted ensures k !in s'.nodes[y].end.hist.minted {
      MintsFresh(s, a, x, k);
      if k in s'.nodes[y].end.hist.minted { MintsFresh(s, a, y, k); }
    }
  }

  lemma MintersStep(s: Sys, a: Step)
    requires Inv(s) && Minters(s) && Enabled(s, a)
    ensures Minters(Next(s, a))
  {
    var s' := Next(s, a);
    forall x | x in s'.nodes ensures MintedBy(s', x) {
      MintedStep(s, a, x);
    }
    forall x, y | x in s'.nodes && y in s'.nodes && x != y ensures Apart(s', x, y) {
      if x in s.nodes && y in s.nodes { ApartStep(s, a, x, y); } else { NewMintsNothing(s, a, x); NewMintsNothing(s, a, y); }
    }
  }

  lemma NewMintsNothing(s: Sys, a: Step, x: Id)
    requires Enabled(s, a) && x in Next(s, a).nodes
    ensures x !in s.nodes ==> Next(s, a).nodes[x].end.hist.minted == {}
  {
  }

  lemma {:induction false} RunMinters(ss: seq<Sys>, steps: seq<Step>, i: nat)
    requires Run(ss, steps) && i < |ss|
    ensures Minters(ss[i])
  {
    if i > 0 {
      RunMinters(ss, steps, i - 1);
      RunStep(ss, steps, i - 1);
      MintersStep(ss[i - 1], steps[i - 1]);
    }
  }

  /** An end that is about to read has every key it ever minted: a member that uses a re-wrapped key
      at once is never ahead of the host that re-wrapped it. */
  lemma ReaderHasItsKeys(ss: seq<Sys>, steps: seq<Step>, i: nat, h: Id, k: GroupKey)
    requires Run(ss, steps) && i < |ss| && CanRead(ss[i], h) && k in ss[i].nodes[h].end.hist.minted
    ensures var v := ss[i].nodes[h].end.v;
      k in v.installed && (Opens(v, k) <==> k in LastNine(v.installed))
  {
    RunKeeps(ss, steps, i);
    RunMinters(ss, steps, i);
    assert MintedBy(ss[i], h) && NodeOk(ss[i], h);
    OpensExactly(ss[i].nodes[h].end.v, k);
  }
}
