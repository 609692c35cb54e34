/** Group keys across a hold: what a member that reconnects reads of the key messages its host sent
    during the outage, and when it falls behind. */
module HeldKeys {
  import opened Wire
  import opened Ends
  import opened SessionPipes
  import H = HubSpec
  import V = HubViews
  import Runs = HubExamples

  /** The key state a member comes to by reading `fs`, as long as it keeps its host. */
  function Heard(v: KeyView, fs: seq<Frame>): KeyView {
    AbsorbAll(v, From(fs, v.hostId))
  }

  predicate Member(v: KeyView) {
    v.keyed && !v.failed
  }

  /** The frame that has no room behind the JoinResult is a key message that counts for the member. */
  predicate KeyLost(v: KeyView, fs: seq<Frame>) {
    && |fs| == H.SEND_BUFFER
    && var ps, w := PayloadFrom(fs[H.SEND_BUFFER - 1], v.hostId), Heard(v, fs[..H.SEND_BUFFER - 1]);
       ps != [] && Decides(w, ps[0]) != None
  }

  // ----- One payload -----

  lemma {:induction false} StaysMember(v: KeyView, ps: seq<Payload>)
    requires Member(v)
    ensures Member(AbsorbAll(v, ps))
  {
    if ps != [] { StaysMember(v, ps[..|ps| - 1]); }
  }

  /** A payload changes the key state exactly when the member decides on it. */
  lemma ChangesExactly(v: KeyView, p: Payload)
    requires Member(v)
    ensures Absorb(v, p) == v <==> Decides(v, p) == None
  {
    DecidesAbsorb(v, p);
    if Decides(v, p).Some? && Decides(v, p).value.NewKey? {
      assert |Absorb(v, p).installed| == |v.installed| + 1;
    }
  }

  lemma HeardMore(v: KeyView, fs: seq<Frame>, f: Frame)
    ensures Heard(v, fs + [f]) ==
            (if PayloadFrom(f, v.hostId) == [] then Heard(v, fs) else Absorb(Heard(v, fs), PayloadFrom(f, v.hostId)[0]))
  {
    FromSnoc(fs, f, v.hostId);
    var ps := PayloadFrom(f, v.hostId);
    if ps == [] {
      assert From(fs, v.hostId) + ps == From(fs, v.hostId);
    } else {
      assert ps == [ps[0]];
      AbsorbSnoc(v, From(fs, v.hostId), ps[0]);
    }
  }

  /** The reply in front of the kept frames carries no keys. */
  lemma HeardReply(v: KeyView, jr: Frame, fs: seq<Frame>)
    requires jr.JoinResult?
    ensures Heard(v, [jr] + fs) == Heard(v, fs)
  {
    FromCons([jr] + fs, v.hostId);
    assert ([jr] + fs)[1..] == fs;
    assert [] + From(fs, v.hostId) == From(fs, v.hostId);
  }

  /** What the resumed connection delivers, as key state. */
  lemma ResumedHears(states: seq<H.HubState>, labels: seq<H.Label>, i: nat, id: Id, conn: H.ConnId, v: KeyView)
    requires H.Run(states, labels) && i < |states| && !states[i].over
    requires id in states[i].clients && states[i].clients[id].held
    ensures states[i].clients[id].taken == 0 && |states[i].clients[id].stream| <= H.SEND_BUFFER
    ensures
      var fs := states[i].clients[id].stream;
      Heard(v, H.ResumedSlot(states[i], id, conn).clients[id].stream)
        == Heard(v, if |fs| == H.SEND_BUFFER then fs[..H.SEND_BUFFER - 1] else fs)
  {
    var s, c := states[i], states[i].clients[id];
    V.RunKeeps(states, labels, i);
    assert V.SlotOk(s, id);
    var fs := c.stream;
    assert fs[0..] == fs && (|fs| < H.SEND_BUFFER ==> fs[..|fs|] == fs);
    assert H.KeptFrames(c) == if |fs| == H.SEND_BUFFER then fs[..H.SEND_BUFFER - 1] else fs;
    var jr := JoinResult(id, H.PeersExcept(s, id), s.host, c.token);
    HeardReply(v, jr, H.KeptFrames(c));
  }

  /** In every run of the hub: a member that reconnects comes to the key state that everything sent to it
      during the outage leads to, if and only if the hold did not lose, as its 64th frame, a key
      message of its host's that the member would have taken. */
  lemma ResumedKeysExactly(states: seq<H.HubState>, labels: seq<H.Label>, i: nat, id: Id, conn: H.ConnId, v: KeyView)
    requires H.Run(states, labels) && i < |states| && !states[i].over
    requires id in states[i].clients && states[i].clients[id].held && Member(v)
    ensures states[i].clients[id].taken == 0
    ensures Heard(v, H.ResumedSlot(states[i], id, conn).clients[id].stream) == Heard(v, states[i].clients[id].stream) <==>
            !KeyLost(v, states[i].clients[id].stream)
  {
    ResumedHears(states, labels, i, id, conn, v);
    var fs := states[i].clients[id].stream;
    if |fs| == H.SEND_BUFFER { LastCounts(v, fs, H.SEND_BUFFER - 1); }
  }

  /** The last frame changes the key state exactly when it carries something the member decides on. */
  lemma LastCounts(v: KeyView, fs: seq<Frame>, n: nat)
    requires Member(v) && |fs| == n + 1
    ensures Heard(v, fs[..n]) == Heard(v, fs) <==>
            (PayloadFrom(fs[n], v.hostId) == [] || Decides(Heard(v, fs[..n]), PayloadFrom(fs[n], v.hostId)[0]) == None)
  {
    assert fs == fs[..n] + [fs[n]];
    HeardMore(v, fs[..n], fs[n]);
    StaysMember(v, From(fs[..n], v.hostId));
    if PayloadFrom(fs[n], v.hostId) != [] { ChangesExactly(Heard(v, fs[..n]), PayloadFrom(fs[n], v.hostId)[0]); }
  }

  // ----- Afterwards -----

  predicate TakesKey(v: KeyView, p: Payload) {
    Decides(v, p).Some? && Decides(v, p).value.NewKey?
  }

  /** Some message among `ps` carries a group key that the member opens. */
  ghost predicate Rekeys(v: KeyView, ps: seq<Payload>) {
    exists n: nat :: n < |ps| && TakesKey(AbsorbAll(v, ps[..n]), ps[n])
  }

  /** Two key states that differ in their group keys only. */
  predicate SamePair(v: KeyView, w: KeyView) {
    Member(v) && Member(w) && v.self == w.self && v.hostId == w.hostId && v.hostPair == w.hostPair && v.rekeyNonce == w.rekeyNonce
  }

  lemma SameDecisions(v: KeyView, w: KeyView, p: Payload)
    requires SamePair(v, w)
    ensures Decides(v, p) == Decides(w, p) && SamePair(Absorb(v, p), Absorb(w, p))
    ensures Absorb(v, p).groupKey == Absorb(w, p).groupKey <==> v.groupKey == w.groupKey || TakesKey(v, p)
  {
    DecidesAbsorb(v, p);
    DecidesAbsorb(w, p);
  }

  lemma RekeysMore(v: KeyView, ps: seq<Payload>)
    requires ps != []
    ensures var n := |ps| - 1; Rekeys(v, ps) <==> Rekeys(v, ps[..n]) || TakesKey(AbsorbAll(v, ps[..n]), ps[n])
  {
    var n := |ps| - 1;
    if Rekeys(v, ps) {
      var k: nat :| k < |ps| && TakesKey(AbsorbAll(v, ps[..k]), ps[k]);
      if k < n { assert ps[..n][..k] == ps[..k] && ps[..n][k] == ps[k]; }
    }
    if Rekeys(v, ps[..n]) {
      var k: nat :| k < n && TakesKey(AbsorbAll(v, ps[..n][..k]), ps[..n][k]);
      assert ps[..n][..k] == ps[..k];
    }
  }

  /** A member that has lost a group key, but no pairwise key, is on its host's key again exactly when a
      later message gives it one. */
  lemma {:induction false} CatchesUpExactly(v: KeyView, w: KeyView, ps: seq<Payload>)
    requires SamePair(v, w)
    ensures SamePair(AbsorbAll(v, ps), AbsorbAll(w, ps))
    ensures AbsorbAll(v, ps).groupKey == AbsorbAll(w, ps).groupKey <==> v.groupKey == w.groupKey || Rekeys(v, ps)
  {
    if ps != [] {
      var n := |ps| - 1;
      CatchesUpExactly(v, w, ps[..n]);
      SameDecisions(AbsorbAll(v, ps[..n]), AbsorbAll(w, ps[..n]), ps[n]);
      RekeysMore(v, ps);
    }
  }

  /** The lost frame held a group key: the resumed member stays behind until its host re-wraps another
      key to it, unless the lost key was the one it had. */
  lemma LostKeyExactly(states: seq<H.HubState>, labels: seq<H.Label>, i: nat, id: Id, conn: H.ConnId, v: KeyView, ps: seq<Payload>)
    requires H.Run(states, labels) && i < |states| && !states[i].over
    requires id in states[i].clients && states[i].clients[id].held && Member(v)
    requires
      var fs := states[i].clients[id].stream;
      KeyLost(v, fs) && PayloadFrom(fs[|fs| - 1], v.hostId)[0].Rekey?
    ensures states[i].clients[id].taken == 0
    ensures
      var fs := states[i].clients[id].stream;
      var now, sent := Heard(v, H.ResumedSlot(states[i], id, conn).clients[id].stream), Heard(v, fs);
      && sent.groupKey == PayloadFrom(fs[|fs| - 1], v.hostId)[0].wrap.key
      && (AbsorbAll(now, ps).groupKey == AbsorbAll(sent, ps).groupKey <==> now.groupKey == sent.groupKey || Rekeys(now, ps))
  {
    ResumedHears(states, labels, i, id, conn, v);
    LastIsKey(v, states[i].clients[id].stream, ps);
  }

  lemma LastIsKey(v: KeyView, fs: seq<Frame>, ps: seq<Payload>)
    requires Member(v) && KeyLost(v, fs) && PayloadFrom(fs[|fs| - 1], v.hostId)[0].Rekey?
    ensures
      var now, sent := Heard(v, fs[..H.SEND_BUFFER - 1]), Heard(v, fs);
      && sent.groupKey == PayloadFrom(fs[|fs| - 1], v.hostId)[0].wrap.key
      && (AbsorbAll(now, ps).groupKey == AbsorbAll(sent, ps).groupKey <==> now.groupKey == sent.groupKey || Rekeys(now, ps))
  {
    var n := |fs| - 1;
    var w, p := Heard(v, fs[..n]), PayloadFrom(fs[n], v.hostId)[0];
    assert fs == fs[..n] + [fs[n]];
    HeardMore(v, fs[..n], fs[n]);
    StaysMember(v, From(fs[..n], v.hostId));
    KeyKeepsPair(w, p);
    CatchesUpExactly(w, Absorb(w, p), ps);
  }

  lemma KeyKeepsPair(v: KeyView, p: Payload)
    requires Member(v) && p.Rekey? && Decides(v, p) != None
    ensures SamePair(v, Absorb(v, p)) && Absorb(v, p).groupKey == p.wrap.key
  {
  }

  /** Nothing but another answer makes a member forget its pairwise key. */
  lemma {:induction false} PairStays(v: KeyView, ps: seq<Payload>)
    requires Member(v) && forall k :: 0 <= k < |ps| ==> !ps[k].RekeyPake2?
    ensures var w := AbsorbAll(v, ps); Member(w) && w.self == v.self && w.hostPair == v.hostPair && w.rekeyNonce == v.rekeyNonce
  {
    if ps != [] { PairStays(v, ps[..|ps| - 1]); }
  }

  /** Some message among `ps` re-wraps a group key to `x`. */
  ghost predicate ForIt(ps: seq<Payload>, x: Id) {
    exists k :: 0 <= k < |ps| && ps[k].Rekey? && ps[k].wrap.to == x
  }

  lemma ForItMore(ps: seq<Payload>, x: Id)
    requires ps != []
    ensures var p := ps[|ps| - 1]; ForIt(ps, x) <==> ForIt(ps[..|ps| - 1], x) || (p.Rekey? && p.wrap.to == x)
  {
    if ForIt(ps, x) {
      var k :| 0 <= k < |ps| && ps[k].Rekey? && ps[k].wrap.to == x;
      if k < |ps| - 1 { assert ps[..|ps| - 1][k] == ps[k]; }
    }
  }

  /** For keys wrapped under one pairwise key: the member takes one exactly when the pairwise key is its
      own and the key is for it. */
  lemma {:induction false} RekeysExactly(v: KeyView, ps: seq<Payload>, pair: PairKey)
    requires Member(v) && forall k :: 0 <= k < |ps| ==> !ps[k].RekeyPake2? && (ps[k].Rekey? ==> ps[k].wrap.under == pair)
    ensures Rekeys(v, ps) <==> v.hostPair == Some(pair) && ForIt(ps, v.self)
    ensures !Rekeys(v, ps) ==> AbsorbAll(v, ps) == v
  {
    if ps != [] {
      var n := |ps| - 1;
      RekeysExactly(v, ps[..n], pair);
      RekeysMore(v, ps);
      PairStays(v, ps[..n]);
      DecidesAbsorb(AbsorbAll(v, ps[..n]), ps[n]);
      ForItMore(ps, v.self);
    }
  }

  /** The lost frame was the answer to a fetch of the key: until another answer comes, the member opens
      none of the keys wrapped under the pairwise key it failed to derive, and had it read the answer it
      would have taken every one of them that is for it. */
  lemma LostAnswerStaysBehind(v: KeyView, answer: Payload, ps: seq<Payload>)
    requires Member(v) && answer.RekeyPake2? && Decides(v, answer) != None && Absorb(v, answer).hostPair != v.hostPair
    requires forall k :: 0 <= k < |ps| ==>
      !ps[k].RekeyPake2? && (ps[k].Rekey? ==> Some(ps[k].wrap.under) == Absorb(v, answer).hostPair)
    ensures AbsorbAll(v, ps) == v
    ensures Rekeys(Absorb(v, answer), ps) <==> ForIt(ps, v.self)
  {
    RekeysExactly(v, ps, Absorb(v, answer).hostPair.value);
    RekeysExactly(Absorb(v, answer), ps, Absorb(v, answer).hostPair.value);
  }

  // ----- A run that loses a key -----

  lemma {:induction false} FillersSilent(fs: seq<Frame>)
    requires forall k :: 0 <= k < |fs| ==> fs[k] == Runs.FILLER || fs[k].ParticipantJoined?
    ensures forall v: KeyView :: Heard(v, fs) == v
  {
    if fs != [] {
      var n := |fs| - 1;
      FillersSilent(fs[..n]);
      assert fs == fs[..n] + [fs[n]];
      forall v: KeyView ensures Heard(v, fs) == v { HeardMore(v, fs[..n], fs[n]); }
    }
  }

  function Sent(s: H.HubState, x: Id, f: Frame): H.HubState
    requires x in s.clients
  {
    s.(clients := s.clients[x := Runs.Add(s.clients[x], f)])
  }

  lemma SendDone(s: H.HubState, from: Id, x: Id, p: Payload)
    requires Runs.AllRoomy(s) && x in s.clients
    ensures H.CommandStep(s, H.Forward(from, H.ToOne(x, p)), H.Silent, H.Start, Sent(s, x, Direct(from, x, p)), true)
  {
    var f := Direct(from, x, p);
    var s' := Sent(s, x, f);
    forall y | y in s.clients ensures H.Sent(s, f, x, s', y, true) {
      assert H.Drift(s.clients[y], s.clients[y], true);
    }
    assert s'.evict[|s.evict|..] == [];
    forall y ensures !H.NewlyEvicting(s, s', y) { }
    assert H.KickedConns(s, s') == {};
    Runs.Done(s, H.Forward(from, H.ToOne(x, p)), H.Silent, s');
  }

  /** A run in which the host's 64th frame to a held member re-wraps a new group key: the member reconnects
      and goes on with the key it had. */
  lemma KeyLostInHold(w: Wrap) returns (states: seq<H.HubState>, labels: seq<H.Label>, i: nat)
    ensures H.Run(states, labels) && i < |states| && !states[i].over
    ensures 2 in states[i].clients && states[i].clients[2].held && states[i].clients[2].taken == 0
    ensures forall v: KeyView, conn :: Reads(v, w) && v.self == 2 && v.hostId == 1 ==>
      && Heard(v, H.ResumedSlot(states[i], 2, conn).clients[2].stream) == v
      && Heard(v, states[i].clients[2].stream).groupKey == w.key
  {
    var t;
    states, labels, t := Runs.Fill(H.SEND_BUFFER - 2);
    SendDone(t, 1, 2, Rekey(w));
    var f := Direct(1, 2, Rekey(w));
    var s := Sent(t, 2, f);
    states, labels := Runs.Extend(states, labels, t, H.Did(H.Forward(1, H.ToOne(2, Rekey(w))), H.Silent, H.Start), s);
    i := |states| - 1;
    FillersSilent(t.clients[2].stream);
    assert s.clients[2].stream[..H.SEND_BUFFER - 1] == t.clients[2].stream;
    var states0, labels0, i0 := states, labels, i;
    forall v: KeyView, conn | Reads(v, w) && v.self == 2 && v.hostId == 1
      ensures Heard(v, H.ResumedSlot(s, 2, conn).clients[2].stream) == v
      ensures Heard(v, s.clients[2].stream).groupKey == w.key
    {
      LosesKey(states0, labels0, i0, 2, v, conn, f, w);
    }
  }

  lemma LosesKey(states: seq<H.HubState>, labels: seq<H.Label>, i: nat, id: Id, v: KeyView, conn: H.ConnId, f: Frame, w: Wrap)
    requires H.Run(states, labels) && i < |states| && !states[i].over && id in states[i].clients && states[i].clients[id].held
    requires Reads(v, w) && f == Direct(v.hostId, id, Rekey(w))
    requires var fs, n := states[i].clients[id].stream, H.SEND_BUFFER - 1; |fs| == n + 1 && fs[n] == f && Heard(v, fs[..n]) == v
    ensures states[i].clients[id].taken == 0
    ensures Heard(v, H.ResumedSlot(states[i], id, conn).clients[id].stream) == v
    ensures Heard(v, states[i].clients[id].stream).groupKey == w.key
  {
    ResumedHears(states, labels, i, id, conn, v);
    OpensLast(v, states[i].clients[id].stream, f, w);
  }

  /** The member opens what is wrapped so. */
  predicate Reads(v: KeyView, w: Wrap) {
    Member(v) && v.hostPair == Some(w.under) && w.to == v.self
  }

  lemma OpensLast(v: KeyView, fs: seq<Frame>, f: Frame, w: Wrap)
    requires Reads(v, w) && PayloadFrom(f, v.hostId) == [Rekey(w)]
    requires fs != [] && fs[|fs| - 1] == f && Heard(v, fs[..|fs| - 1]) == v
    ensures Heard(v, fs).groupKey == w.key
  {
    assert fs == fs[..|fs| - 1] + [f];
    HeardMore(v, fs[..|fs| - 1], f);
  }
}
