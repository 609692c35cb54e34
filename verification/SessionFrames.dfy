/** Sealed frames over whole runs: under which key each was sealed, where it came from, and who opens
    it. */
module SessionFrames {
  import opened Wire
  import opened Ends
  import opened Session
  import opened SessionPipes
  import opened KeyAgreement
  import opened SessionInv
  import opened SessionReads
  import opened SessionRuns
  import opened SessionResults
  import opened SessionHistory
  import opened SessionSources

  // ----- Sealing -----

  /** The key installed last. */
  function Newest(keys: seq<GroupKey>): GroupKey
    requires keys != []
  {
    keys[|keys| - 1]
  }

  /** At step `j` end `x` seals a frame, and `k` is the key it installed last. */
  ghost predicate SealsAt(ss: seq<Sys>, steps: seq<Step>, j: nat, x: Id, k: GroupKey) {
    && j < |steps| && j < |ss| && steps[j] == DoSeal(x) && x in ss[j].nodes
    && ss[j].nodes[x].end.v.installed != [] && k == Newest(ss[j].nodes[x].end.v.installed)
  }

  /** At step `j` end `x` writes a frame it had sealed under `k`, to everybody or to one end. */
  ghost predicate SendsAt(ss: seq<Sys>, steps: seq<Step>, j: nat, x: Id, to: Option<Id>, k: GroupKey) {
    && j < |steps| && j < |ss| && steps[j].DoSend? && steps[j].x == x && steps[j].to == to && x in ss[j].nodes
    && steps[j].i < |ss[j].nodes[x].sealed| && ss[j].nodes[x].sealed[steps[j].i] == k
  }

  /** A frame is sealed under the key installed last, and waits to be written. */
  lemma SealAdds(ss: seq<Sys>, steps: seq<Step>, j: nat, x: Id) returns (k: GroupKey)
    requires Run(ss, steps) && j < |steps| && steps[j] == DoSeal(x)
    ensures SealsAt(ss, steps, j, x, k) && x in ss[j + 1].nodes && ss[j + 1].nodes[x].sealed == ss[j].nodes[x].sealed + [k]
    ensures ss[j].nodes[x].end.v.groupKey == k && ss[j + 1].nodes[x].end == ss[j].nodes[x].end
  {
    RunStep(ss, steps, j);
    assert NodeOk(ss[j], x);
    k := Newest(ss[j].nodes[x].end.v.installed);
  }

  // ----- Where frames come from -----

  ghost predicate SealedBefore(ss: seq<Sys>, steps: seq<Step>, i: nat, x: Id, k: GroupKey) {
    exists j: nat :: j < i && SealsAt(ss, steps, j, x, k)
  }

  ghost predicate SentBefore(ss: seq<Sys>, steps: seq<Step>, i: nat, x: Id, to: Option<Id>, k: GroupKey) {
    exists j: nat :: j < i && SendsAt(ss, steps, j, x, to, k) && SealedBefore(ss, steps, j, x, k)
  }

  lemma BeforeLater(ss: seq<Sys>, steps: seq<Step>, i: nat)
    ensures forall x, k :: SealedBefore(ss, steps, i, x, k) ==> SealedBefore(ss, steps, i + 1, x, k)
    ensures forall x, to, k :: SentBefore(ss, steps, i, x, to, k) ==> SentBefore(ss, steps, i + 1, x, to, k)
  {
  }

  /** A sealed payload from `from`, for `to` or for everybody, was sealed and sent so by `from`. */
  ghost predicate Genuine(ss: seq<Sys>, steps: seq<Step>, i: nat, from: Id, to: Option<Id>, p: Payload) {
    p.Sealed? ==> p.sender == from && SentBefore(ss, steps, i, from, to, p.key)
  }

  ghost predicate FrameGenuine(ss: seq<Sys>, steps: seq<Step>, i: nat, x: Id, f: Frame) {
    match f
    case Direct(from, to, p) => to == x && Genuine(ss, steps, i, from, Some(x), p)
    case Broadcast(from, p) => from != x && p.Sealed? && Genuine(ss, steps, i, from, None, p)
    case _ => true
  }

  ghost predicate OutGenuine(ss: seq<Sys>, steps: seq<Step>, i: nat, x: Id, o: Out) {
    match o
    case ToOne(to, p) => Genuine(ss, steps, i, x, Some(to), p)
    case ToAll(k) => SentBefore(ss, steps, i, x, None, k)
  }

  ghost predicate StreamGenuine(ss: seq<Sys>, steps: seq<Step>, i: nat, x: Id, fs: seq<Frame>) {
    forall l :: 0 <= l < |fs| ==> FrameGenuine(ss, steps, i, x, fs[l])
  }

  ghost predicate OutboxGenuine(ss: seq<Sys>, steps: seq<Step>, i: nat, x: Id, os: seq<Out>) {
    forall l :: 0 <= l < |os| ==> OutGenuine(ss, steps, i, x, os[l])
  }

  ghost predicate WaitingGenuine(ss: seq<Sys>, steps: seq<Step>, i: nat, x: Id, ks: seq<GroupKey>) {
    forall l :: 0 <= l < |ks| ==> SealedBefore(ss, steps, i, x, ks[l])
  }

  ghost predicate NodeGenuine(ss: seq<Sys>, steps: seq<Step>, i: nat, x: Id, n: Node) {
    && StreamGenuine(ss, steps, i, x, n.stream)
    && OutboxGenuine(ss, steps, i, x, n.outbox)
    && WaitingGenuine(ss, steps, i, x, n.sealed)
  }

  lemma NodeLaterGenuine(ss: seq<Sys>, steps: seq<Step>, i: nat, x: Id, n: Node)
    requires NodeGenuine(ss, steps, i, x, n)
    ensures NodeGenuine(ss, steps, i + 1, x, n)
  {
    BeforeLater(ss, steps, i);
    forall l | 0 <= l < |n.stream| ensures FrameGenuine(ss, steps, i + 1, x, n.stream[l]) {
      assert FrameGenuine(ss, steps, i, x, n.stream[l]);
    }
    forall l | 0 <= l < |n.outbox| ensures OutGenuine(ss, steps, i + 1, x, n.outbox[l]) {
      assert OutGenuine(ss, steps, i, x, n.outbox[l]);
    }
  }

  /** What a step adds to an end's outbox. */
  lemma OutboxAfterStep(s: Sys, a: Step, x: Id)
    requires Inv(s) && Enabled(s, a) && x in s.nodes && x in Next(s, a).nodes
    ensures
      var os, os' := s.nodes[x].outbox, Next(s, a).nodes[x].outbox;
      || os' == os || (a == DoRoute(x) && os != [] && os' == os[1..])
      || (exists o: Out :: os' == os + [o] && o.ToOne? && !o.payload.Sealed?)
      || (a.DoSend? && a.x == x &&
          var k := s.nodes[x].sealed[a.i];
          os' == os + [if a.to == None then ToAll(k) else ToOne(a.to.value, Sealed(k, x))])
  {
    if a.DoWrite? && a.x == x {
      WritesKeys(s, x);
    } else if a.DoFly? && a.x == x {
      var (to, nonce) := s.nodes[x].end.flight.value;
      assert Next(s, a).nodes[x].outbox == s.nodes[x].outbox + [ToOne(to, RekeyPake1(nonce))];
    }
  }

  lemma WritesKeys(s: Sys, x: Id)
    requires Inv(s) && Enabled(s, DoWrite(x))
    ensures exists o: Out :: Next(s, DoWrite(x)).nodes[x].outbox == s.nodes[x].outbox + [o] && o.ToOne? && !o.payload.Sealed?
  {
    assert NodeOk(s, x);
    assert WriteOk(s, x, s.nodes[x].end.writing[0]);
    var (to, p) := s.nodes[x].end.writing[0];
    assert Next(s, DoWrite(x)).nodes[x].outbox == s.nodes[x].outbox + [ToOne(to, p)];
  }

  /** What a step does to the frames an end has sealed. */
  lemma WaitingAfterStep(s: Sys, a: Step, x: Id)
    requires Inv(s) && Enabled(s, a) && x in s.nodes && x in Next(s, a).nodes
    ensures
      var ks, ks' := s.nodes[x].sealed, Next(s, a).nodes[x].sealed;
      if a == DoSeal(x) then |ks'| == |ks| + 1 && ks' == ks + [ks'[|ks|]]
      else if a.DoSend? && a.x == x then ks' == ks[..a.i] + ks[a.i + 1..]
      else ks' == ks
  {
  }

  /** What a step adds to a stream. */
  lemma NodeStreamAfter(s: Sys, a: Step, x: Id)
    requires Inv(s) && Enabled(s, a) && x in s.nodes && x in Next(s, a).nodes
    ensures
      var fs, fs' := s.nodes[x].stream, Next(s, a).nodes[x].stream;
      || fs' == fs
      || (exists f: Frame :: fs' == fs + [f] && Sender(f) == None)
      || (a.DoRoute? &&
          match s.nodes[a.x].outbox[0]
          case ToOne(to, p) => to == x && fs' == fs + [Direct(a.x, x, p)]
          case ToAll(k) => a.x != x && fs' == fs + [Broadcast(a.x, Sealed(k, a.x))])
  {
    if a.DoJoin? && x in s.members { assert Next(s, a).nodes[x].stream == s.nodes[x].stream + [ParticipantJoined(s.nextId)]; }
    if a.DoLeave? && x in Next(s, a).members { assert Next(s, a).nodes[x].stream == s.nodes[x].stream + [ParticipantLeft(a.x)]; }
  }

  ghost predicate AllGenuine(ss: seq<Sys>, steps: seq<Step>, i: nat)
    requires i < |ss|
  {
    forall x {:trigger NodeGenuine(ss, steps, i, x, ss[i].nodes[x])} ::
      x in ss[i].nodes ==> NodeGenuine(ss, steps, i, x, ss[i].nodes[x])
  }

  lemma StreamStep(ss: seq<Sys>, steps: seq<Step>, i: nat, x: Id)
    requires Run(ss, steps) && i < |steps| && AllGenuine(ss, steps, i) && x in ss[i].nodes && x in ss[i + 1].nodes
    ensures StreamGenuine(ss, steps, i + 1, x, ss[i + 1].nodes[x].stream)
  {
    RunStep(ss, steps, i);
    assert NodeGenuine(ss, steps, i, x, ss[i].nodes[x]);
    NodeLaterGenuine(ss, steps, i, x, ss[i].nodes[x]);
    NodeStreamAfter(ss[i], steps[i], x);
    if steps[i].DoRoute? {
      var y := steps[i].x;
      assert NodeGenuine(ss, steps, i, y, ss[i].nodes[y]);
      NodeLaterGenuine(ss, steps, i, y, ss[i].nodes[y]);
      assert OutGenuine(ss, steps, i + 1, y, ss[i].nodes[y].outbox[0]);
    }
  }

  lemma OutboxStep(ss: seq<Sys>, steps: seq<Step>, i: nat, x: Id)
    requires Run(ss, steps) && i < |steps| && AllGenuine(ss, steps, i) && x in ss[i].nodes && x in ss[i + 1].nodes
    ensures OutboxGenuine(ss, steps, i + 1, x, ss[i + 1].nodes[x].outbox)
  {
    RunStep(ss, steps, i);
    var a := steps[i];
    assert NodeGenuine(ss, steps, i, x, ss[i].nodes[x]);
    NodeLaterGenuine(ss, steps, i, x, ss[i].nodes[x]);
    OutboxAfterStep(ss[i], a, x);
    if a.DoSend? && a.x == x {
      var k := ss[i].nodes[x].sealed[a.i];
      assert SendsAt(ss, steps, i, x, a.to, k) && SealedBefore(ss, steps, i, x, k);
      assert SentBefore(ss, steps, i + 1, x, a.to, k);
    }
  }

  lemma WaitingStep(ss: seq<Sys>, steps: seq<Step>, i: nat, x: Id)
    requires Run(ss, steps) && i < |steps| && AllGenuine(ss, steps, i) && x in ss[i].nodes && x in ss[i + 1].nodes
    ensures WaitingGenuine(ss, steps, i + 1, x, ss[i + 1].nodes[x].sealed)
  {
    RunStep(ss, steps, i);
    var a := steps[i];
    assert NodeGenuine(ss, steps, i, x, ss[i].nodes[x]);
    NodeLaterGenuine(ss, steps, i, x, ss[i].nodes[x]);
    WaitingAfterStep(ss[i], a, x);
    if a == DoSeal(x) {
      var k := SealAdds(ss, steps, i, x);
      assert SealedBefore(ss, steps, i + 1, x, k);
    }
  }

  lemma {:induction false} RunGenuine(ss: seq<Sys>, steps: seq<Step>, i: nat)
    requires Run(ss, steps) && i < |ss|
    ensures AllGenuine(ss, steps, i)
  {
    if i > 0 {
      RunGenuine(ss, steps, i - 1);
      RunStep(ss, steps, i - 1);
      forall x | x in ss[i].nodes ensures NodeGenuine(ss, steps, i, x, ss[i].nodes[x]) {
        if x in ss[i - 1].nodes {
          StreamStep(ss, steps, i - 1, x);
          OutboxStep(ss, steps, i - 1, x);
          WaitingStep(ss, steps, i - 1, x);
        }
      }
    }
  }

  /** A sealed frame that an end comes to read was sealed, under the key its sender had installed last
      then, and sent to that end or to everybody, by the end it is stamped with and no other. */
  lemma FrameWasSealed(ss: seq<Sys>, steps: seq<Step>, i: nat, x: Id) returns (j: nat, l: nat)
    requires Run(ss, steps) && i < |ss| && CanRead(ss[i], x)
    requires Sender(NextFrame(ss[i], x)).Some? && Carried(NextFrame(ss[i], x)).Sealed?
    ensures
      var f := NextFrame(ss[i], x);
      var from, p := Sender(f).value, Carried(f);
      && p.sender == from && j < l < i
      && SealsAt(ss, steps, j, from, p.key)
      && SendsAt(ss, steps, l, from, if f.Direct? then Some(x) else None, p.key)
  {
    RunGenuine(ss, steps, i);
    var f := NextFrame(ss[i], x);
    assert NodeGenuine(ss, steps, i, x, ss[i].nodes[x]);
    assert FrameGenuine(ss, steps, i, x, f);
    var from, p, to := Sender(f).value, Carried(f), if f.Direct? then Some(x) else None;
    l :| l < i && SendsAt(ss, steps, l, from, to, p.key) && SealedBefore(ss, steps, l, from, p.key);
    j :| j < l && SealsAt(ss, steps, j, from, p.key);
  }

  // ----- Each is sent at most once -----

  ghost function SealLog(ss: seq<Sys>, steps: seq<Step>, i: nat, x: Id): multiset<GroupKey>
    requires |ss| == |steps| + 1 && i <= |steps|
  {
    if i == 0 then multiset{}
    else if steps[i - 1] == DoSeal(x) && x in ss[i - 1].nodes && ss[i - 1].nodes[x].end.v.installed != [] then
      SealLog(ss, steps, i - 1, x) + multiset{Newest(ss[i - 1].nodes[x].end.v.installed)}
    else SealLog(ss, steps, i - 1, x)
  }

  ghost function SendLog(ss: seq<Sys>, steps: seq<Step>, i: nat, x: Id): multiset<GroupKey>
    requires |ss| == |steps| + 1 && i <= |steps|
  {
    if i == 0 then multiset{}
    else
      var a := steps[i - 1];
      if a.DoSend? && a.x == x && x in ss[i - 1].nodes && a.i < |ss[i - 1].nodes[x].sealed| then
        SendLog(ss, steps, i - 1, x) + multiset{ss[i - 1].nodes[x].sealed[a.i]}
      else SendLog(ss, steps, i - 1, x)
  }

  lemma TakeOut(ks: seq<GroupKey>, i: nat)
    requires i < |ks|
    ensures multiset(ks) == multiset(ks[..i] + ks[i + 1..]) + multiset{ks[i]}
  {
    assert ks == ks[..i] + [ks[i]] + ks[i + 1..];
  }

  /** What an end has sealed is what it has sent and what still waits, each frame once. */
  ghost predicate Conserved(ss: seq<Sys>, steps: seq<Step>, i: nat, x: Id)
    requires |ss| == |steps| + 1 && i <= |steps|
  {
    SealLog(ss, steps, i, x) ==
      if x in ss[i].nodes then SendLog(ss, steps, i, x) + multiset(ss[i].nodes[x].sealed) else multiset{}
  }

  lemma OneMore(sealed: multiset<GroupKey>, sent: multiset<GroupKey>, ks: seq<GroupKey>, k: GroupKey)
    requires sealed == sent + multiset(ks)
    ensures sealed + multiset{k} == sent + multiset(ks + [k])
  {
  }

  lemma OneSent(sealed: multiset<GroupKey>, sent: multiset<GroupKey>, ks: seq<GroupKey>, i: nat)
    requires sealed == sent + multiset(ks) && i < |ks|
    ensures sealed == sent + multiset{ks[i]} + multiset(ks[..i] + ks[i + 1..])
  {
    TakeOut(ks, i);
  }

  lemma ConservedSeal(ss: seq<Sys>, steps: seq<Step>, i: nat, x: Id)
    requires Run(ss, steps) && i < |steps| && steps[i] == DoSeal(x) && x in ss[i].nodes && Conserved(ss, steps, i, x)
    ensures Conserved(ss, steps, i + 1, x)
  {
    var k := SealAdds(ss, steps, i, x);
    OneMore(SealLog(ss, steps, i, x), SendLog(ss, steps, i, x), ss[i].nodes[x].sealed, k);
  }

  lemma ConservedSend(ss: seq<Sys>, steps: seq<Step>, i: nat, x: Id)
    requires Run(ss, steps) && i < |steps| && steps[i].DoSend? && steps[i].x == x && x in ss[i].nodes && Conserved(ss, steps, i, x)
    ensures Conserved(ss, steps, i + 1, x)
  {
    RunStep(ss, steps, i);
    WaitingAfterStep(ss[i], steps[i], x);
    OneSent(SealLog(ss, steps, i, x), SendLog(ss, steps, i, x), ss[i].nodes[x].sealed, steps[i].i);
  }

  lemma ConservedStep(ss: seq<Sys>, steps: seq<Step>, i: nat, x: Id)
    requires Run(ss, steps) && i < |steps| && x in ss[i].nodes && x in ss[i + 1].nodes && Conserved(ss, steps, i, x)
    ensures Conserved(ss, steps, i + 1, x)
  {
    if steps[i] == DoSeal(x) {
      ConservedSeal(ss, steps, i, x);
    } else if steps[i].DoSend? && steps[i].x == x {
      ConservedSend(ss, steps, i, x);
    } else {
      RunStep(ss, steps, i);
      WaitingAfterStep(ss[i], steps[i], x);
    }
  }

  lemma {:induction false} NothingSent(ss: seq<Sys>, steps: seq<Step>, i: nat, x: Id)
    requires Run(ss, steps) && i < |ss| && x !in ss[i].nodes
    ensures SealLog(ss, steps, i, x) == SendLog(ss, steps, i, x) == multiset{}
  {
    if i > 0 {
      RunStep(ss, steps, i - 1);
      StepLater(ss[i - 1], steps[i - 1]);
      NothingSent(ss, steps, i - 1, x);
    }
  }

  lemma ConservedNew(ss: seq<Sys>, steps: seq<Step>, i: nat, x: Id)
    requires Run(ss, steps) && i < |steps| && x !in ss[i].nodes && x in ss[i + 1].nodes
    ensures Conserved(ss, steps, i + 1, x)
  {
    RunStep(ss, steps, i);
    NothingSent(ss, steps, i, x);
    NewSealsNothing(ss[i], steps[i], x);
  }

  lemma {:induction false} FramesConserved(ss: seq<Sys>, steps: seq<Step>, i: nat, x: Id)
    requires Run(ss, steps) && i < |ss|
    ensures Conserved(ss, steps, i, x)
  {
    if x !in ss[i].nodes {
      NothingSent(ss, steps, i, x);
    } else if i > 0 {
      if x in ss[i - 1].nodes {
        FramesConserved(ss, steps, i - 1, x);
        ConservedStep(ss, steps, i - 1, x);
      } else {
        ConservedNew(ss, steps, i - 1, x);
      }
    }
  }

  lemma NewSealsNothing(s: Sys, a: Step, x: Id)
    requires Enabled(s, a) && x !in s.nodes && x in Next(s, a).nodes
    ensures Next(s, a).nodes[x].sealed == [] && a.DoJoin?
  {
  }

  // ----- Departed ends and the frames sealed after them -----

  /** A host on keys of its own that were all minted since `c` were. */
  ghost predicate Renewed(e: End, c: nat) {
    OwnKeys(e) && e.v.groupKey >= c && (e.swapTo.Some? ==> e.swapTo.value >= c)
  }

  lemma RenewedStep(s: Sys, a: Step, h: Id, c: nat)
    requires Inv(s) && Enabled(s, a) && h in s.nodes && Renewed(s.nodes[h].end, c) && c <= s.minted
    ensures h in Next(s, a).nodes && Renewed(Next(s, a).nodes[h].end, c)
  {
    OwnStep(s, a, h);
    if Actor(a) == Some(h) {
      ActorChanged(s, a);
      assert NodeOk(s, h);
      if a.DoRead? { ReaderChanged(s, a); }
    } else {
      OthersUnchanged(s, a, h);
    }
  }

  lemma {:induction false} RenewedForever(ss: seq<Sys>, steps: seq<Step>, i: nat, j: nat, h: Id, c: nat)
    requires Run(ss, steps) && i <= j < |ss| && h in ss[i].nodes && Renewed(ss[i].nodes[h].end, c) && c <= ss[i].minted
    ensures h in ss[j].nodes && Renewed(ss[j].nodes[h].end, c) && c <= ss[j].minted
  {
    if i < j {
      RenewedForever(ss, steps, i, j - 1, h, c);
      RunStep(ss, steps, j - 1);
      RenewedStep(ss[j - 1], steps[j - 1], h, c);
      StepLater(ss[j - 1], steps[j - 1]);
    }
  }

  /** The creator is on keys of its own all along. */
  lemma {:induction false} CreatorOwnsKeys(ss: seq<Sys>, steps: seq<Step>, i: nat)
    requires Run(ss, steps) && i < |ss|
    ensures FIRST in ss[i].nodes && OwnKeys(ss[i].nodes[FIRST].end)
  {
    if i > 0 {
      CreatorOwnsKeys(ss, steps, i - 1);
      RunStep(ss, steps, i - 1);
      OwnStep(ss[i - 1], steps[i - 1], FIRST);
    }
  }

  /** The rotation that reading a departure begins at step `i` is complete with the switch at step `q`. */
  ghost predicate Rekeys(ss: seq<Sys>, steps: seq<Step>, i: nat, q: nat, h: Id) {
    && i < q < |steps| && |ss| == |steps| + 1
    && steps[i].DoRead? && steps[i].x == h && CanRead(ss[i], h) && Rotates(ss[i].nodes[h].end, NextFrame(ss[i], h))
    && steps[q] == DoSwap(h) && forall l :: i < l < q ==> steps[l] != DoSwap(h)
  }

  lemma SwapStep(s: Sys, a: Step, h: Id, k: GroupKey)
    requires Inv(s) && Enabled(s, a) && h in s.nodes && s.nodes[h].end.swapTo == Some(k) && a != DoSwap(h)
    ensures h in Next(s, a).nodes && Next(s, a).nodes[h].end.swapTo == Some(k)
  {
    StepLater(s, a);
    if Actor(a) == Some(h) {
      ActorChanged(s, a);
    } else {
      OthersUnchanged(s, a, h);
    }
  }

  lemma {:induction false} SwapWaits(ss: seq<Sys>, steps: seq<Step>, i: nat, q: nat, h: Id)
    requires Run(ss, steps) && i < q < |ss| && steps[i].DoRead? && steps[i].x == h && CanRead(ss[i], h)
    requires Rotates(ss[i].nodes[h].end, NextFrame(ss[i], h)) && OwnKeys(ss[i].nodes[h].end)
    requires forall l :: i < l < q ==> steps[l] != DoSwap(h)
    ensures h in ss[q].nodes && ss[q].nodes[h].end.swapTo == Some(ss[i].minted) && OwnKeys(ss[q].nodes[h].end)
    decreases q
  {
    RunStep(ss, steps, q - 1);
    if i < q - 1 {
      SwapWaits(ss, steps, i, q - 1, h);
      SwapStep(ss[q - 1], steps[q - 1], h, ss[i].minted);
    } else {
      ReaderChanged(ss[i], steps[i]);
      ActorChanged(ss[i], steps[i]);
    }
    OwnStep(ss[q - 1], steps[q - 1], h);
  }

  lemma RekeysRenew(ss: seq<Sys>, steps: seq<Step>, d: nat, i: nat, q: nat, h: Id)
    requires Run(ss, steps) && d <= i && Rekeys(ss, steps, i, q, h) && OwnKeys(ss[i].nodes[h].end)
    ensures h in ss[q + 1].nodes && Renewed(ss[q + 1].nodes[h].end, ss[d].minted) && ss[d].minted <= ss[q + 1].minted
  {
    SwapWaits(ss, steps, i, q, h);
    RunStep(ss, steps, q);
    OwnStep(ss[q], steps[q], h);
    ActorChanged(ss[q], steps[q]);
    MintedGrows(ss, steps, d, i);
    MintedGrows(ss, steps, d, q + 1);
  }

  /** What a renewed host seals, an end that had departed by `d` opens in no later state. */
  lemma RenewedLocksOut(ss: seq<Sys>, steps: seq<Step>, d: nat, i: nat, j: nat, h: Id, x: Id) returns (k: GroupKey)
    requires Run(ss, steps) && d <= i <= j < |steps| && steps[j] == DoSeal(h) && h != x
    requires x in ss[d].nodes && x !in ss[d].members
    requires h in ss[i].nodes && Renewed(ss[i].nodes[h].end, ss[d].minted) && ss[d].minted <= ss[i].minted
    ensures h in ss[j + 1].nodes && h in ss[j].nodes && ss[j + 1].nodes[h].sealed == ss[j].nodes[h].sealed + [k]
    ensures forall l :: j < l < |ss| ==> x in ss[l].nodes && !Opens(ss[l].nodes[x].end.v, k)
  {
    k := SealAdds(ss, steps, j, h);
    var key := k;
    RenewedForever(ss, steps, i, j, h, ss[d].minted);
    forall l | j < l < |ss| ensures x in ss[l].nodes && !Opens(ss[l].nodes[x].end.v, key) {
      MintedKept(ss, steps, j, l, h, key);
      DepartedLockedOut(ss, steps, d, l, x, h, key);
    }
  }

  lemma {:induction false} MintedKept(ss: seq<Sys>, steps: seq<Step>, j: nat, l: nat, h: Id, k: GroupKey)
    requires Run(ss, steps) && j <= l < |ss| && h in ss[j].nodes && k in ss[j].nodes[h].end.hist.minted
    ensures h in ss[l].nodes && k in ss[l].nodes[h].end.hist.minted
  {
    if j < l {
      MintedKept(ss, steps, j, l - 1, h, k);
      RunStep(ss, steps, l - 1);
      StepLater(ss[l - 1], steps[l - 1]);
      if Actor(steps[l - 1]) == Some(h) {
        MintedStays(ss[l - 1], steps[l - 1]);
        ActorChanged(ss[l - 1], steps[l - 1]);
      } else {
        OthersUnchanged(ss[l - 1], steps[l - 1], h);
      }
    }
  }

  /** The host reads at step `i` that `x` has left, and has switched keys since if it had anybody to
      re-wrap to. The departed end ever opens a frame the host then seals if and only if it had
      nobody, and the frame's key is among the last nine the departed end has installed. */
  lemma DepartedOpensExactly(ss: seq<Sys>, steps: seq<Step>, i: nat, q: nat, j: nat, h: Id, x: Id) returns (k: GroupKey)
    requires Run(ss, steps) && i < j < |steps| && steps[j] == DoSeal(h) && h != x
    requires steps[i].DoRead? && steps[i].x == h && CanRead(ss[i], h) && NextFrame(ss[i], h) == ParticipantLeft(x)
    requires IsHost(ss[i].nodes[h].end) && OwnKeys(ss[i].nodes[h].end) && x in ss[i].nodes
    requires (ss[i].nodes[h].end.pairwise - {x}).Keys != {} ==> q < j && Rekeys(ss, steps, i, q, h)
    ensures h in ss[j + 1].nodes && h in ss[j].nodes && ss[j + 1].nodes[h].sealed == ss[j].nodes[h].sealed + [k]
    ensures forall l :: j < l < |ss| ==> x in ss[l].nodes
    ensures forall l :: j < l < |ss| ==>
      (Opens(ss[l].nodes[x].end.v, k) <==>
        (ss[i].nodes[h].end.pairwise - {x}).Keys == {} && k in LastNine(ss[l].nodes[x].end.v.installed))
  {
    RunKeeps(ss, steps, i);
    assert NodeOk(ss[i], h);
    assert FrameOk(ss[i], h, NextFrame(ss[i], h));
    if (ss[i].nodes[h].end.pairwise - {x}).Keys != {} {
      RekeysRenew(ss, steps, i, i, q, h);
      k := RenewedLocksOut(ss, steps, i, q + 1, j, h, x);
    } else {
      k := SealAdds(ss, steps, j, h);
      var key := k;
      forall l | j < l < |ss| ensures x in ss[l].nodes && (Opens(ss[l].nodes[x].end.v, key) <==> key in LastNine(ss[l].nodes[x].end.v.installed)) {
        NodesStay(ss, steps, i, l, x);
        RunKeeps(ss, steps, l);
        HasRing(ss[l], x);
        OpensExactly(ss[l].nodes[x].end.v, key);
      }
    }
  }

  /** The same for the successor of a departed host: what it seals after a rotation that no half taken
      key message overran, the departed host opens in no later state. */
  lemma SuccessorSealsAlone(ss: seq<Sys>, steps: seq<Step>, d: nat, i: nat, j: nat, h: Id, x: Id) returns (k: GroupKey)
    requires Run(ss, steps) && d <= i < j < |steps| && RotatesAt(ss, steps, i, h) && steps[j] == DoSeal(h) && h != x
    requires x in ss[d].nodes && x !in ss[d].members && h in ss[d].nodes && ss[d].nodes[h].end.v.role != ROLE_HOST
    requires !HalfTaken(ss[i].nodes[h].end)
    ensures h in ss[j + 1].nodes && h in ss[j].nodes && ss[j + 1].nodes[h].sealed == ss[j].nodes[h].sealed + [k]
    ensures forall l :: j < l < |ss| ==> x in ss[l].nodes && !Opens(ss[l].nodes[x].end.v, k)
  {
    RotationRenews(ss, steps, d, i, h);
    k := RenewedLocksOut(ss, steps, d, i + 1, j, h, x);
  }

  lemma RotationRenews(ss: seq<Sys>, steps: seq<Step>, d: nat, i: nat, h: Id)
    requires Run(ss, steps) && d <= i < |steps| && RotatesAt(ss, steps, i, h) && !HalfTaken(ss[i].nodes[h].end)
    requires h in ss[d].nodes && ss[d].nodes[h].end.v.role != ROLE_HOST
    ensures h in ss[i + 1].nodes && Renewed(ss[i + 1].nodes[h].end, ss[d].minted) && ss[d].minted <= ss[i + 1].minted
  {
    RotationStands(ss, steps, i, i + 1, h);
    RunMints(ss, steps, d, h);
    var e := ss[i + 1].nodes[h].end;
    MintedSince(ss, steps, d, i + 1, h, e.v.groupKey);
    if e.swapTo.Some? { MintedSince(ss, steps, d, i + 1, h, e.swapTo.value); }
    MintedGrows(ss, steps, d, i + 1);
  }

  /** Exactly when the departed host opens the next frame its successor seals. */
  lemma SuccessorFramesExactly(ss: seq<Sys>, steps: seq<Step>, d: nat, i: nat, j: nat, h: Id, x: Id) returns (k: GroupKey)
    requires Run(ss, steps) && d <= i < j < |steps| && RotatesAt(ss, steps, i, h) && steps[j] == DoSeal(h) && h != x
    requires x in ss[d].nodes && x !in ss[d].members && h in ss[d].nodes && ss[d].nodes[h].end.v.role != ROLE_HOST
    requires HalfTaken(ss[i].nodes[h].end) ==>
      i + 1 < j && steps[j - 1] == DoCommit(h) && forall l :: i < l < j - 1 ==> steps[l] != DoCommit(h)
    ensures h in ss[j + 1].nodes && h in ss[j].nodes && ss[j + 1].nodes[h].sealed == ss[j].nodes[h].sealed + [k]
    ensures x in ss[j + 1].nodes
    ensures
      var was, e := ss[i].nodes[h].end, ss[j + 1].nodes[x].end;
      Opens(e.v, k) <==> HalfTaken(was) && was.commit.value.key in LastNine(e.v.installed)
  {
    k := SealAdds(ss, steps, j, h);
    SuccessorOpenExactly(ss, steps, d, i, j, h, x);
    RunStep(ss, steps, j);
    OthersUnchanged(ss[j], steps[j], x);
  }

  // ----- Members -----

  /** Two settled members that one host has answered, or such a member and its host: what either seals,
      the other opens. */
  lemma SettledFramesOpen(ss: seq<Sys>, steps: seq<Step>, j: nat, h: Id, m: Id, n: Id) returns (k: GroupKey)
    requires Run(ss, steps) && j < |steps| && AllTakenIn(ss[j], h, m) && m in ss[j].nodes[h].end.pairwise
    requires !Crossed(ss, steps, j, m, h)
    requires n == h || (AllTakenIn(ss[j], h, n) && n in ss[j].nodes[h].end.pairwise && !Crossed(ss, steps, j, n, h))
    requires steps[j] == DoSeal(m) || steps[j] == DoSeal(n)
    ensures m in ss[j + 1].nodes && n in ss[j + 1].nodes
    ensures ss[j + 1].nodes[steps[j].x].sealed == ss[j].nodes[steps[j].x].sealed + [k]
    ensures Opens(ss[j + 1].nodes[m].end.v, k) && Opens(ss[j + 1].nodes[n].end.v, k)
  {
    k := SealAdds(ss, steps, j, steps[j].x);
    SettledAgree(ss, steps, j, h, m);
    if n != h { SettledAgree(ss, steps, j, h, n); }
    RunStep(ss, steps, j);
    assert NodeOk(ss[j], h);
    if steps[j].x != m { OthersUnchanged(ss[j], steps[j], m); }
    if steps[j].x != n { OthersUnchanged(ss[j], steps[j], n); }
  }
}
