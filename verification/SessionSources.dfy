/** Where keys come from: whoever wraps a key has installed or minted it. So a host opens what its
    members seal under the keys it gave them, and a successor's keys stay its own. */
module SessionSources {
  import opened Wire
  import opened Ends
  import opened Session
  import opened SessionPipes
  import opened KeyAgreement
  import opened SessionInv
  import opened SessionReads
  import opened SessionRelay
  import opened SessionRuns
  import opened SessionResults
  import opened SessionHistory

  // ----- What an end knows -----

  ghost predicate Knows(s: Sys, h: Id, k: GroupKey) {
    h in s.nodes && (k in s.nodes[h].end.v.installed || k in s.nodes[h].end.hist.minted)
  }

  /** The key a payload carries, if it is one of the messages that carry keys. */
  ghost predicate Sourced(s: Sys, from: Id, p: Payload) {
    && (p.KeyGrant? ==> Knows(s, from, p.wrap.key))
    && (p.Rekey? ==> Knows(s, from, p.wrap.key))
  }

  ghost predicate FrameSourced(s: Sys, f: Frame) {
    Sender(f).Some? ==> Sourced(s, Sender(f).value, Carried(f))
  }

  ghost predicate OutSourced(s: Sys, x: Id, o: Out) {
    o.ToOne? ==> Sourced(s, x, o.payload)
  }

  ghost predicate EndSourced(s: Sys, x: Id, e: End) {
    && (forall i :: 0 <= i < |e.writing| ==> Sourced(s, x, e.writing[i].1))
    && (forall g, k :: (g, k) in e.hist.got ==> Knows(s, g, k))
    && (e.commit.Some? && e.commit.value.NewKey? ==> Knows(s, e.commit.value.from, e.commit.value.key))
  }

  ghost predicate NodeSourced(s: Sys, x: Id)
    requires x in s.nodes
  {
    var n := s.nodes[x];
    && (forall i :: 0 <= i < |n.stream| ==> FrameSourced(s, n.stream[i]))
    && (forall i :: 0 <= i < |n.outbox| ==> OutSourced(s, x, n.outbox[i]))
    && EndSourced(s, x, n.end)
  }

  ghost predicate AllSourced(s: Sys) {
    forall x {:trigger NodeSourced(s, x)} :: x in s.nodes ==> NodeSourced(s, x)
  }

  // ----- Preservation -----

  lemma MintedStays(s: Sys, a: Step)
    requires Enabled(s, a) && Actor(a).Some?
    ensures s.nodes[Actor(a).value].end.hist.minted <= EndAfter(s, a).hist.minted
  {
    if a.DoRead? { ReaderChanged(s, a); }
  }

  /** Nothing that is known is forgotten. */
  lemma KnowsStays(s: Sys, a: Step, h: Id, k: GroupKey)
    requires Inv(s) && Enabled(s, a) && Knows(s, h, k)
    ensures Knows(Next(s, a), h, k)
  {
    if Actor(a) == Some(h) {
      ActorKeys(s, a);
      MintedStays(s, a);
      ActorChanged(s, a);
    } else {
      StepLater(s, a);
      OthersUnchanged(s, a, h);
    }
  }

  ghost predicate Learns(s: Sys, s': Sys) {
    forall h, k {:trigger Knows(s, h, k)} :: Knows(s, h, k) ==> Knows(s', h, k)
  }

  lemma StepLearns(s: Sys, a: Step)
    requires Inv(s) && Enabled(s, a)
    ensures Learns(s, Next(s, a))
  {
    forall h, k | Knows(s, h, k) ensures Knows(Next(s, a), h, k) { KnowsStays(s, a, h, k); }
  }

  lemma EndLearns(s: Sys, x: Id, e: End, s': Sys)
    requires EndSourced(s, x, e) && Learns(s, s')
    ensures EndSourced(s', x, e)
  {
    forall i | 0 <= i < |e.writing| ensures Sourced(s', x, e.writing[i].1) { assert Sourced(s, x, e.writing[i].1); }
  }

  lemma NodeLearns(s: Sys, x: Id, s': Sys, fs: seq<Frame>, os: seq<Out>)
    requires Learns(s, s') && (forall i :: 0 <= i < |fs| ==> FrameSourced(s, fs[i]))
    requires forall i :: 0 <= i < |os| ==> OutSourced(s, x, os[i])
    ensures forall i :: 0 <= i < |fs| ==> FrameSourced(s', fs[i])
    ensures forall i :: 0 <= i < |os| ==> OutSourced(s', x, os[i])
  {
    forall i | 0 <= i < |fs| ensures FrameSourced(s', fs[i]) { assert FrameSourced(s, fs[i]); }
    forall i | 0 <= i < |os| ensures OutSourced(s', x, os[i]) { assert OutSourced(s, x, os[i]); }
  }

  /** Reading leaves the end with keys that the sender of the frame, or the end itself, knows. */
  lemma ReadSourced(s: Sys, x: Id, e: End, f: Frame, y: nat, role: Role, outs: seq<(Id, Payload)>, s': Sys)
    requires EndSourced(s, x, e) && FrameSourced(s, f) && Idle(e) && Learns(s, s') && (e.v.keyed ==> e.v.groupKey in e.v.installed)
    requires x in s.nodes && e == s.nodes[x].end
    requires Rotates(e, f) ==> Covers(outs, e.pairwise - {f.who}, s.minted) && Knows(s', x, s.minted)
    ensures EndSourced(s', x, Receive(e, f, s.minted, y, role, outs))
  {
    EndLearns(s, x, e, s');
    if !e.v.keyed {
      JoinSourced(s, x, e, f, y, role, outs, s');
    } else if f.ParticipantLeft? {
      if Rotates(e, f) {
        forall i | 0 <= i < |outs| ensures Sourced(s', x, outs[i].1) {
          assert outs[i] == RekeyFor(e.pairwise - {f.who}, s.minted, outs[i].0);
        }
      }
    } else if Sender(f).Some? {
      PayloadSourced(s, x, e, Sender(f).value, Carried(f), y, role, s');
    }
  }

  lemma JoinSourced(s: Sys, x: Id, e: End, f: Frame, y: nat, role: Role, outs: seq<(Id, Payload)>, s': Sys)
    requires EndSourced(s', x, e) && FrameSourced(s, f) && Idle(e) && Learns(s, s') && !e.v.keyed
    ensures EndSourced(s', x, Receive(e, f, s.minted, y, role, outs))
  {
    if Sender(f).Some? { assert Sourced(s, Sender(f).value, Carried(f)); }
  }

  lemma PayloadSourced(s: Sys, x: Id, e: End, from: Id, p: Payload, y: nat, role: Role, s': Sys)
    requires EndSourced(s', x, e) && Sourced(s, from, p) && Idle(e) && Learns(s, s') && e.v.groupKey in e.v.installed
    requires x in s.nodes && e == s.nodes[x].end
    ensures EndSourced(s', x, HandlePayload(e, from, p, y, role))
  {
    assert Knows(s, x, e.v.groupKey);
    var e' := HandlePayload(e, from, p, y, role);
    forall i | 0 <= i < |e'.writing| ensures Sourced(s', x, e'.writing[i].1) { }
  }

  lemma ActorSourced(s: Sys, a: Step)
    requires Inv(s) && AllSourced(s) && Enabled(s, a) && Actor(a).Some?
    ensures EndSourced(Next(s, a), Actor(a).value, EndAfter(s, a))
  {
    var x, s' := Actor(a).value, Next(s, a);
    var e := s.nodes[x].end;
    assert NodeSourced(s, x);
    StepLearns(s, a);
    EndLearns(s, x, e, s');
    if a.DoRead? {
      ReadFresh(s, a);
      ReadSourced(s, x, e, NextFrame(s, x), s.nonce, a.role, a.outs, s');
    }
  }

  lemma ReadFresh(s: Sys, a: Step)
    requires Inv(s) && AllSourced(s) && Enabled(s, a) && a.DoRead?
    ensures var e, f := s.nodes[a.x].end, NextFrame(s, a.x);
      && (e.v.keyed ==> e.v.groupKey in e.v.installed) && FrameSourced(s, f)
      && (Rotates(e, f) ==> Knows(Next(s, a), a.x, s.minted))
  {
    assert NodeOk(s, a.x);
    assert NodeSourced(s, a.x);
    ActorChanged(s, a);
  }

  /** What an end has written carries keys it knows. */
  lemma OutboxSourced(s: Sys, a: Step, x: Id)
    requires Inv(s) && AllSourced(s) && Enabled(s, a) && x in s.nodes && x in Next(s, a).nodes
    ensures forall i :: 0 <= i < |Next(s, a).nodes[x].outbox| ==> OutSourced(Next(s, a), x, Next(s, a).nodes[x].outbox[i])
  {
    var s', n := Next(s, a), s.nodes[x];
    assert NodeSourced(s, x);
    StepLearns(s, a);
    NodeLearns(s, x, s', n.stream, n.outbox);
    EndLearns(s, x, n.end, s');
    OutboxAfter(s, a, x);
  }

  /** What a step adds to an outbox. */
  lemma OutboxAfter(s: Sys, a: Step, x: Id)
    requires Enabled(s, a) && x in s.nodes && x in Next(s, a).nodes && (a.DoJoin? ==> x != s.nextId)
    ensures var os, os' := s.nodes[x].outbox, Next(s, a).nodes[x].outbox;
      || os' == os || (os != [] && os' == os[1..])
      || exists o :: os' == os + [o] && (o.ToOne? && (o.payload.KeyGrant? || o.payload.Rekey?) ==>
           s.nodes[x].end.writing != [] && o.payload == s.nodes[x].end.writing[0].1)
  {
    var os, os' := s.nodes[x].outbox, Next(s, a).nodes[x].outbox;
    if |os'| == |os| + 1 { assert os' == os + [os'[|os|]]; }
  }

  lemma StreamSourced(s: Sys, a: Step, x: Id)
    requires Inv(s) && AllSourced(s) && Enabled(s, a) && x in s.nodes && x in Next(s, a).nodes
    ensures forall i :: 0 <= i < |Next(s, a).nodes[x].stream| ==> FrameSourced(Next(s, a), Next(s, a).nodes[x].stream[i])
  {
    var s', n := Next(s, a), s.nodes[x];
    assert NodeSourced(s, x);
    StepLearns(s, a);
    NodeLearns(s, x, s', n.stream, n.outbox);
    if a.DoRoute? {
      assert NodeSourced(s, a.x);
      assert OutSourced(s, a.x, s.nodes[a.x].outbox[0]);
    }
  }

  lemma SourcedStep(s: Sys, a: Step)
    requires Inv(s) && AllSourced(s) && Enabled(s, a)
    ensures AllSourced(Next(s, a))
  {
    var s' := Next(s, a);
    forall x | x in s'.nodes ensures NodeSourced(s', x) {
      if x in s.nodes {
        OutboxSourced(s, a, x);
        StreamSourced(s, a, x);
        EndSourcedStep(s, a, x);
      } else {
        NewSourced(s, a, x);
      }
    }
  }

  lemma EndSourcedStep(s: Sys, a: Step, x: Id)
    requires Inv(s) && AllSourced(s) && Enabled(s, a) && x in s.nodes && x in Next(s, a).nodes
    ensures EndSourced(Next(s, a), x, Next(s, a).nodes[x].end)
  {
    if Actor(a) == Some(x) {
      ActorSourced(s, a);
      ActorChanged(s, a);
    } else {
      OthersUnchanged(s, a, x);
      assert NodeSourced(s, x);
      StepLearns(s, a);
      EndLearns(s, x, s.nodes[x].end, Next(s, a));
    }
  }

  lemma NewSourced(s: Sys, a: Step, x: Id)
    requires Enabled(s, a) && x !in s.nodes && x in Next(s, a).nodes
    ensures NodeSourced(Next(s, a), x)
  {
  }

  lemma {:induction false} RunSourced(ss: seq<Sys>, steps: seq<Step>, i: nat)
    requires Run(ss, steps) && i < |ss|
    ensures AllSourced(ss[i])
  {
    if i > 0 {
      RunSourced(ss, steps, i - 1);
      RunStep(ss, steps, i - 1);
      SourcedStep(ss[i - 1], steps[i - 1]);
    }
  }

  // ----- Member frames at the host -----

  /** The next frame a host reads was sealed by a member under a key that member got from this host:
      the host has installed that key, also when the member used it before the host's own switch,
      and opens the frame unless eight newer keys have been installed over it. */
  lemma HostOpensMemberFrames(ss: seq<Sys>, steps: seq<Step>, i: nat, h: Id, m: Id, k: GroupKey)
    requires Run(ss, steps) && i < |ss| && CanRead(ss[i], h) && m in ss[i].nodes
    requires PayloadFrom(NextFrame(ss[i], h), m) == [Sealed(k, m)] && (h, k) in ss[i].nodes[m].end.hist.got
    ensures var v := ss[i].nodes[h].end.v;
      k in v.installed && (Opens(v, k) <==> k in LastNine(v.installed))
  {
    RunKeeps(ss, steps, i);
    RunSourced(ss, steps, i);
    assert NodeSourced(ss[i], m);
    assert Knows(ss[i], h, k);
    if k in ss[i].nodes[h].end.hist.minted {
      ReaderHasItsKeys(ss, steps, i, h, k);
    } else {
      HasRing(ss[i], h);
      OpensExactly(ss[i].nodes[h].end.v, k);
    }
  }

  // ----- A successor's own keys -----

  /** Only hosts mint; what an end is about to switch to it has minted, and what it is about to
      install for somebody else it has not. */
  ghost predicate MintOk(e: End) {
    && (e.v.role != ROLE_HOST ==> e.hist.minted == {})
    && (e.swapTo.Some? ==> e.swapTo.value in e.hist.minted)
    && (e.commit.Some? && e.commit.value.NewKey? ==> e.commit.value.key !in e.hist.minted)
  }

  lemma ReadMints(s: Sys, x: Id, e: End, f: Frame, y: nat, role: Role, outs: seq<(Id, Payload)>)
    requires EndOk(s, x, e) && FrameOk(s, x, f) && Idle(e) && MintOk(e)
    ensures MintOk(Receive(e, f, s.minted, y, role, outs))
  {
    if e.v.keyed && Sender(f).Some? {
      assert e.v.role == ROLE_HOST ==> Decides(e.v, Carried(f)) == None || Sender(f) != Some(e.v.hostId);
    }
  }

  lemma MintStep(s: Sys, a: Step, x: Id)
    requires Inv(s) && Enabled(s, a) && x in Next(s, a).nodes && (x in s.nodes ==> MintOk(s.nodes[x].end))
    ensures MintOk(Next(s, a).nodes[x].end)
  {
    if x in s.nodes {
      if Actor(a) == Some(x) {
        ActorChanged(s, a);
        assert NodeOk(s, x);
        if a.DoRead? { ReadMints(s, x, s.nodes[x].end, NextFrame(s, x), s.nonce, a.role, a.outs); }
      } else {
        OthersUnchanged(s, a, x);
      }
    }
  }

  lemma {:induction false} RunMints(ss: seq<Sys>, steps: seq<Step>, i: nat, x: Id)
    requires Run(ss, steps) && i < |ss| && x in ss[i].nodes
    ensures MintOk(ss[i].nodes[x].end)
  {
    if i > 0 {
      RunStep(ss, steps, i - 1);
      if x in ss[i - 1].nodes { RunMints(ss, steps, i - 1, x); }
      MintStep(ss[i - 1], steps[i - 1], x);
    }
  }

  /** A new key is between its check and its commit. */
  predicate HalfTaken(e: End) {
    e.commit.Some? && e.commit.value.NewKey?
  }

  /** A host on a key of its own, with no other key about to be installed. */
  ghost predicate OwnKeys(e: End) {
    && e.v.keyed && e.v.role == ROLE_HOST && e.v.groupKey in e.hist.minted && MintOk(e)
    && !HalfTaken(e)
  }

  lemma ReadKeepsOwn(s: Sys, x: Id, e: End, f: Frame, y: nat, role: Role, outs: seq<(Id, Payload)>)
    requires EndOk(s, x, e) && FrameOk(s, x, f) && Idle(e) && OwnKeys(e)
    ensures OwnKeys(Receive(e, f, s.minted, y, role, outs))
  {
    ReadMints(s, x, e, f, y, role, outs);
  }

  lemma OwnStep(s: Sys, a: Step, h: Id)
    requires Inv(s) && Enabled(s, a) && h in s.nodes && OwnKeys(s.nodes[h].end)
    ensures h in Next(s, a).nodes && OwnKeys(Next(s, a).nodes[h].end)
  {
    StepLater(s, a);
    if Actor(a) == Some(h) {
      ActorChanged(s, a);
      assert NodeOk(s, h);
      if a.DoRead? { ReadKeepsOwn(s, h, s.nodes[h].end, NextFrame(s, h), s.nonce, a.role, a.outs); }
    } else {
      OthersUnchanged(s, a, h);
    }
  }

  ghost predicate RotatesAt(ss: seq<Sys>, steps: seq<Step>, i: nat, h: Id)
    requires |ss| == |steps| + 1 && i < |steps|
  {
    steps[i] == DoRotate(h) && h in ss[i].nodes && IsHost(ss[i].nodes[h].end)
  }

  /** A rotation for a migration stands if no key message was between its check and its commit: from
      then on the host is on keys of its own. */
  lemma {:induction false} RotationStands(ss: seq<Sys>, steps: seq<Step>, i: nat, j: nat, h: Id)
    requires Run(ss, steps) && i < j < |ss| && RotatesAt(ss, steps, i, h)
    requires !HalfTaken(ss[i].nodes[h].end)
    ensures h in ss[j].nodes && OwnKeys(ss[j].nodes[h].end)
    decreases j
  {
    RunStep(ss, steps, j - 1);
    if j == i + 1 {
      RunMints(ss, steps, i, h);
      RunMints(ss, steps, j, h);
      ActorChanged(ss[i], steps[i]);
      assert NodeOk(ss[i], h);
    } else {
      RotationStands(ss, steps, i, j - 1, h);
      OwnStep(ss[j - 1], steps[j - 1], h);
    }
  }

  /** Otherwise the commit puts the old host's key over the rotated one. */
  lemma RotationOverrun(ss: seq<Sys>, steps: seq<Step>, i: nat, j: nat, h: Id)
    requires Run(ss, steps) && i < j < |steps| && RotatesAt(ss, steps, i, h)
    requires HalfTaken(ss[i].nodes[h].end)
    requires steps[j] == DoCommit(h) && forall l :: i < l < j ==> steps[l] != DoCommit(h)
    ensures h in ss[j + 1].nodes
    ensures var k, e := ss[i].nodes[h].end.commit.value.key, ss[j + 1].nodes[h].end;
      e.v.groupKey == k && k !in e.hist.minted
  {
    CommitWaits(ss, steps, i, j, h);
    RunStep(ss, steps, j);
    ActorChanged(ss[j], steps[j]);
    RunMints(ss, steps, j, h);
  }

  /** Both halves together: with the key message half taken in at the rotation, if any, committed at
      `j`, the host is on a key of its own if and only if there was none. */
  lemma RotationExactly(ss: seq<Sys>, steps: seq<Step>, i: nat, j: nat, h: Id)
    requires Run(ss, steps) && i < j < |ss| && RotatesAt(ss, steps, i, h)
    requires HalfTaken(ss[i].nodes[h].end) ==>
      i + 1 < j && steps[j - 1] == DoCommit(h) && forall l :: i < l < j - 1 ==> steps[l] != DoCommit(h)
    ensures h in ss[j].nodes
    ensures ss[j].nodes[h].end.v.groupKey in ss[j].nodes[h].end.hist.minted <==> !HalfTaken(ss[i].nodes[h].end)
  {
    if HalfTaken(ss[i].nodes[h].end) {
      RotationOverrun(ss, steps, i, j - 1, h);
    } else {
      RotationStands(ss, steps, i, j, h);
    }
  }

  lemma CommitStep(s: Sys, a: Step, h: Id)
    requires Inv(s) && Enabled(s, a) && h in s.nodes && a != DoCommit(h)
    requires HalfTaken(s.nodes[h].end)
    ensures h in Next(s, a).nodes && Next(s, a).nodes[h].end.commit == s.nodes[h].end.commit
  {
    StepLater(s, a);
    if Actor(a) == Some(h) { ActorChanged(s, a); } else { OthersUnchanged(s, a, h); }
  }

  lemma {:induction false} CommitWaits(ss: seq<Sys>, steps: seq<Step>, i: nat, j: nat, h: Id)
    requires Run(ss, steps) && i <= j < |ss| && h in ss[i].nodes
    requires HalfTaken(ss[i].nodes[h].end)
    requires forall l :: i <= l < j ==> steps[l] != DoCommit(h)
    ensures h in ss[j].nodes && ss[j].nodes[h].end.commit == ss[i].nodes[h].end.commit
  {
    if i < j {
      CommitWaits(ss, steps, i, j - 1, h);
      RunStep(ss, steps, j - 1);
      CommitStep(ss[j - 1], steps[j - 1], h);
    }
  }

  lemma {:induction false} MintedSince(ss: seq<Sys>, steps: seq<Step>, d: nat, j: nat, h: Id, k: GroupKey)
    requires Run(ss, steps) && d <= j < |ss| && h in ss[d].nodes && h in ss[j].nodes && k in ss[j].nodes[h].end.hist.minted
    ensures k in ss[d].nodes[h].end.hist.minted || k >= ss[d].minted
  {
    if d < j {
      RunStep(ss, steps, j - 1);
      NodesStay(ss, steps, d, j - 1, h);
      MintsFresh(ss[j - 1], steps[j - 1], h, k);
      if k in ss[j - 1].nodes[h].end.hist.minted {
        MintedSince(ss, steps, d, j - 1, h, k);
      } else {
        MintedGrows(ss, steps, d, j - 1);
      }
    }
  }

  lemma {:induction false} MintedGrows(ss: seq<Sys>, steps: seq<Step>, d: nat, j: nat)
    requires Run(ss, steps) && d <= j < |ss|
    ensures ss[d].minted <= ss[j].minted
  {
    if d < j {
      MintedGrows(ss, steps, d, j - 1);
      RunStep(ss, steps, j - 1);
      StepLater(ss[j - 1], steps[j - 1]);
    }
  }

  /** The departed host is locked out by its successor: `x` was gone at `d`, when `h` was not host yet,
      and `h` has rotated with no key message half taken in. From then on `x` never opens what `h`
      seals. */
  lemma SuccessorLocksOut(ss: seq<Sys>, steps: seq<Step>, d: nat, i: nat, j: nat, h: Id, x: Id)
    requires Run(ss, steps) && d <= i < j < |ss| && RotatesAt(ss, steps, i, h) && h != x
    requires x in ss[d].nodes && x !in ss[d].members && h in ss[d].nodes && ss[d].nodes[h].end.v.role != ROLE_HOST
    requires !HalfTaken(ss[i].nodes[h].end)
    ensures h in ss[j].nodes && x in ss[j].nodes && !Opens(ss[j].nodes[x].end.v, ss[j].nodes[h].end.v.groupKey)
  {
    RotationStands(ss, steps, i, j, h);
    RunMints(ss, steps, d, h);
    MintedSince(ss, steps, d, j, h, ss[j].nodes[h].end.v.groupKey);
    DepartedLockedOut(ss, steps, d, j, x, h, ss[j].nodes[h].end.v.groupKey);
  }

  /** What an end knows it has installed, or is about to switch to. */
  lemma KnownKey(s: Sys, x: Id, k: GroupKey)
    requires Inv(s) && Minters(s) && Knows(s, x, k)
    ensures k in s.nodes[x].end.v.installed <==> s.nodes[x].end.swapTo != Some(k)
  {
    assert MintedBy(s, x) && NodeOk(s, x);
  }

  /** Exactly when the departed host opens what its successor seals right after the rotation: a key
      message was half taken in when the successor rotated, and its key is among the last nine the departed
      host installed. If it wrapped that key itself and has installed nine at most, it does
      unless it never came to switch to the key. */
  lemma SuccessorOpenExactly(ss: seq<Sys>, steps: seq<Step>, d: nat, i: nat, j: nat, h: Id, x: Id)
    requires Run(ss, steps) && d <= i < j < |ss| && RotatesAt(ss, steps, i, h) && h != x
    requires x in ss[d].nodes && x !in ss[d].members && h in ss[d].nodes && ss[d].nodes[h].end.v.role != ROLE_HOST
    requires HalfTaken(ss[i].nodes[h].end) ==>
      i + 1 < j && steps[j - 1] == DoCommit(h) && forall l :: i < l < j - 1 ==> steps[l] != DoCommit(h)
    ensures h in ss[j].nodes && x in ss[j].nodes
    ensures
      var was, e := ss[i].nodes[h].end, ss[j].nodes[x].end;
      Opens(e.v, ss[j].nodes[h].end.v.groupKey) <==> HalfTaken(was) && was.commit.value.key in LastNine(e.v.installed)
    ensures
      var was, e := ss[i].nodes[h].end, ss[j].nodes[x].end;
      HalfTaken(was) && was.commit.value.from == x && |e.v.installed| <= PREV_KEY_RING + 1 ==>
        (Opens(e.v, ss[j].nodes[h].end.v.groupKey) <==> e.swapTo != Some(was.commit.value.key))
  {
    if HalfTaken(ss[i].nodes[h].end) {
      RotationOverrun(ss, steps, i, j - 1, h);
      OverrunOpens(ss, steps, d, i, j, h, x);
    } else {
      SuccessorLocksOut(ss, steps, d, i, j, h, x);
    }
  }

  lemma OverrunOpens(ss: seq<Sys>, steps: seq<Step>, d: nat, i: nat, j: nat, h: Id, x: Id)
    requires Run(ss, steps) && d <= i < j < |ss| && h in ss[i].nodes && HalfTaken(ss[i].nodes[h].end) && x in ss[d].nodes
    ensures x in ss[j].nodes
    ensures
      var c, e := ss[i].nodes[h].end.commit.value, ss[j].nodes[x].end;
      && (Opens(e.v, c.key) <==> c.key in LastNine(e.v.installed))
      && (c.from == x && |e.v.installed| <= PREV_KEY_RING + 1 ==> (Opens(e.v, c.key) <==> e.swapTo != Some(c.key)))
  {
    var c := ss[i].nodes[h].end.commit.value;
    NodesStay(ss, steps, d, j, x);
    RunKeeps(ss, steps, j);
    HasRing(ss[j], x);
    OpensExactly(ss[j].nodes[x].end.v, c.key);
    if c.from == x {
      RunSourced(ss, steps, i);
      assert NodeSourced(ss[i], h);
      KnownLater(ss, steps, i, j, x, c.key);
      RunMinters(ss, steps, j);
      KnownKey(ss[j], x, c.key);
    }
  }

  lemma {:induction false} KnownLater(ss: seq<Sys>, steps: seq<Step>, i: nat, j: nat, x: Id, k: GroupKey)
    requires Run(ss, steps) && i <= j < |ss| && Knows(ss[i], x, k)
    ensures Knows(ss[j], x, k)
  {
    if i < j {
      KnownLater(ss, steps, i, j - 1, x, k);
      RunStep(ss, steps, j - 1);
      KnowsStays(ss[j - 1], steps[j - 1], x, k);
    }
  }
}
