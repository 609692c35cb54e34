/** Sessions in full, step by step: claims that fail without their conditions. */
module SessionExamples {
  import opened Wire
  import opened Ends
  import opened Session
  import opened SessionInv
  import opened SessionPipes
  import opened KeyAgreement
  import opened SessionReads
  import opened SessionRuns
  import opened SessionResults
  import opened SessionHistory

  /** A run under construction, and the state it has come to. */
  ghost predicate At(ss: seq<Sys>, steps: seq<Step>, s: Sys) {
    Run(ss, steps) && ss[|ss| - 1] == s
  }

  lemma Begin() returns (ss: seq<Sys>, steps: seq<Step>)
    ensures At(ss, steps, Start()) && |steps| == 0
  {
    ss, steps := [Start()], [];
  }

  lemma Extend(ss: seq<Sys>, steps: seq<Step>, s: Sys, a: Step, s': Sys) returns (ss': seq<Sys>, steps': seq<Step>)
    requires At(ss, steps, s) && Enabled(s, a) && s' == Next(s, a)
    ensures At(ss', steps', s') && |steps'| == |steps| + 1
    ensures ss' == ss + [s'] && steps' == steps + [a]
  {
    ss', steps' := ss + [s'], steps + [a];
    forall i | 0 <= i < |steps'| ensures Takes(ss', steps', i) {
      if i < |steps| {
        assert Takes(ss, steps, i);
        assert ss'[i] == ss[i] && ss'[i + 1] == ss[i + 1] && steps'[i] == steps[i];
      } else {
        assert ss'[i] == s && ss'[i + 1] == s' && steps'[i] == a;
      }
    }
  }

  // ----- Runs of several steps -----

  /** The next payload an end has to write reaches its recipient. */
  lemma Handover(ss: seq<Sys>, steps: seq<Step>, s: Sys, h: Id, x: Id, p: Payload, rest: seq<(Id, Payload)>)
    returns (ss': seq<Sys>, steps': seq<Step>, s': Sys)
    requires At(ss, steps, s) && h != x && h in s.nodes && x in s.nodes && x in s.members
    requires s.nodes[h].outbox == [] && s.nodes[h].end.writing == [(x, p)] + rest
    ensures At(ss', steps', s')
    ensures s' == s.(nodes := s.nodes[h := s.nodes[h].(end := s.nodes[h].end.(writing := rest))]
                                     [x := Push(s.nodes[x], Direct(h, x, p))])
  {
    var o, nh := ToOne(x, p), s.nodes[h];
    assert ([(x, p)] + rest)[1..] == rest && [] + [o] == [o] && [o][1..] == [];
    var t := Next(s, DoWrite(h));
    ss', steps' := Extend(ss, steps, s, DoWrite(h), t);
    s' := Next(t, DoRoute(h));
    ss', steps' := Extend(ss', steps', t, DoRoute(h), s');
    assert s'.nodes == s.nodes[h := nh.(end := nh.end.(writing := rest))][x := Push(s.nodes[x], Direct(h, x, p))];
  }

  function Reads(n: Node, e: End): Node {
    n.(read := n.read + 1, end := e)
  }

  /** An end reads its next frame, which makes nobody rotate. */
  lemma ReadOne(ss: seq<Sys>, steps: seq<Step>, s: Sys, x: Id, f: Frame, role: Role)
    returns (ss': seq<Sys>, steps': seq<Step>, s': Sys)
    requires At(ss, steps, s) && CanRead(s, x) && NextFrame(s, x) == f && !Rotates(s.nodes[x].end, f)
    ensures At(ss', steps', s') && ss' == ss + [s'] && steps' == steps + [DoRead(x, role, [])]
    ensures s' == s.(nodes := s.nodes[x := Reads(s.nodes[x], Receive(s.nodes[x].end, f, s.minted, s.nonce, role, []))],
                     nonce := s.nonce + 1)
  {
    s' := Next(s, DoRead(x, role, []));
    ss', steps' := Extend(ss, steps, s, DoRead(x, role, []), s');
  }

  /** A survivor asks its host, and the first flight reaches that. */
  lemma AskOne(ss: seq<Sys>, steps: seq<Step>, s: Sys, m: Id, h: Id)
    returns (ss': seq<Sys>, steps': seq<Step>, s': Sys)
    requires At(ss, steps, s) && h != m && h in s.nodes && m in s.nodes && h in s.members && s.nodes[m].outbox == []
    requires Enabled(s, DoAsk(m)) && s.nodes[m].end.v.hostId == h
    ensures At(ss', steps', s')
    ensures s' == s.(nodes := s.nodes[m := s.nodes[m].(end := Asked(s.nodes[m].end, s.nonce).(flight := None))]
                                     [h := Push(s.nodes[h], Direct(m, h, RekeyPake1(s.nonce)))],
                     nonce := s.nonce + 1)
  {
    var n, o := s.nodes[m], ToOne(h, RekeyPake1(s.nonce));
    var t := Next(s, DoAsk(m));
    ss', steps' := Extend(ss, steps, s, DoAsk(m), t);
    ss', steps', s' := FlyOne(ss', steps', t, m, h, s.nonce);
    assert s'.nodes == s.nodes[m := n.(end := Asked(n.end, s.nonce).(flight := None))][h := Push(s.nodes[h], Direct(m, h, RekeyPake1(s.nonce)))];
  }

  /** A recorded first flight reaches the host it is for. */
  lemma FlyOne(ss: seq<Sys>, steps: seq<Step>, s: Sys, m: Id, h: Id, x: nat)
    returns (ss': seq<Sys>, steps': seq<Step>, s': Sys)
    requires At(ss, steps, s) && h != m && h in s.nodes && m in s.nodes && h in s.members && s.nodes[m].outbox == []
    requires s.nodes[m].end.flight == Some((h, x))
    ensures At(ss', steps', s')
    ensures s' == s.(nodes := s.nodes[m := s.nodes[m].(end := s.nodes[m].end.(flight := None))]
                                     [h := Push(s.nodes[h], Direct(m, h, RekeyPake1(x)))])
  {
    var n, o := s.nodes[m], ToOne(h, RekeyPake1(x));
    assert [] + [o] == [o] && [o][1..] == [];
    var t := Next(s, DoFly(m));
    ss', steps' := Extend(ss, steps, s, DoFly(m), t);
    s' := Next(t, DoRoute(m));
    ss', steps' := Extend(ss', steps', t, DoRoute(m), s');
    assert s'.nodes == s.nodes[m := n.(end := n.end.(flight := None))][h := Push(s.nodes[h], Direct(m, h, RekeyPake1(x)))];
  }

  /** A joiner comes in and its first flight reaches the host. */
  lemma JoinOne(ss: seq<Sys>, steps: seq<Step>, s: Sys)
    returns (ss': seq<Sys>, steps': seq<Step>, s': Sys)
    requires At(ss, steps, s) && s.relayHost in s.members && s.relayHost in s.nodes && s.nextId !in s.nodes
    ensures At(ss', steps', s')
    ensures var h, x := s.relayHost, s.nextId;
      && s'.members == s.members + {x} && s'.nextId == x + 1 && s'.relayHost == h
      && s'.minted == s.minted && s'.nonce == s.nonce + 1 && s'.nodes.Keys == s.nodes.Keys + {x}
      && s'.nodes[x] == Node(Joiner(x, h, s.nonce), [], 0, [], [])
      && s'.nodes[h] == Push(Push(s.nodes[h], ParticipantJoined(x)), Direct(x, h, Pake1(s.nonce, false)))
      && forall y :: y in s.nodes && y != h ==>
           s'.nodes[y] == if y in s.members then Push(s.nodes[y], ParticipantJoined(x)) else s.nodes[y]
  {
    var h, x, o := s.relayHost, s.nextId, ToOne(s.relayHost, Pake1(s.nonce, false));
    var t := Next(s, DoJoin(false));
    ss', steps' := Extend(ss, steps, s, DoJoin(false), t);
    assert t.nodes[x].outbox == [o] && [o][1..] == [];
    s' := Next(t, DoRoute(x));
    ss', steps' := Extend(ss', steps', t, DoRoute(x), s');
  }

  /** A joiner that has been granted `key`. */
  function Seated(x: Id, h: Id, n: nat, y: nat, key: GroupKey): End {
    var e, pair := Joiner(x, h, n), DerivePair(n, y, x, h);
    e.(v := e.v.(joinPair := Some(pair), role := ROLE_MEMBER, keyed := true, groupKey := key,
                 hostPair := Some(pair), installed := [key]),
       hist := e.hist.(seat := ROLE_MEMBER, got := {(h, key)}))
  }

  predicate HostReady(s: Sys, h: Id) {
    && h in s.nodes && h in s.members && s.nodes[h].read == |s.nodes[h].stream| && s.nodes[h].outbox == []
    && Idle(s.nodes[h].end) && s.nodes[h].end.v.role == ROLE_HOST && s.nodes[h].end.v.keyed && !s.nodes[h].end.v.failed
    && s.nodes[h].end.v.self == h
  }

  /** The host reads a joiner's arrival and its first flight. */
  lemma AnswerOne(ss: seq<Sys>, steps: seq<Step>, s: Sys, h: Id, x: Id, n: nat)
    returns (ss': seq<Sys>, steps': seq<Step>, s': Sys)
    requires At(ss, steps, s) && h in s.nodes && Idle(s.nodes[h].end) && s.nodes[h].end.v.role == ROLE_HOST
    requires s.nodes[h].end.v.keyed && !s.nodes[h].end.v.failed && s.nodes[h].read + 2 == |s.nodes[h].stream|
    requires s.nodes[h].stream[s.nodes[h].read..] == [ParticipantJoined(x), Direct(x, h, Pake1(n, false))]
    ensures At(ss', steps', s')
    ensures s' == s.(nodes := s.nodes[h := s.nodes[h].(read := |s.nodes[h].stream|,
                                                      end := AnswerJoin(s.nodes[h].end, x, n, s.nonce + 1, ROLE_MEMBER))],
                     nonce := s.nonce + 2)
  {
    var unread := s.nodes[h].stream[s.nodes[h].read..];
    assert unread[0] == ParticipantJoined(x) && unread[1] == Direct(x, h, Pake1(n, false));
    ss', steps', s' := ReadOne(ss, steps, s, h, unread[0], ROLE_MEMBER);
    ss', steps', s' := ReadOne(ss', steps', s', h, unread[1], ROLE_MEMBER);
  }

  /** What the host has decided on for a new joiner reaches it and is read. */
  lemma GrantOne(ss: seq<Sys>, steps: seq<Step>, s: Sys, h: Id, x: Id, n: nat, y: nat)
    returns (ss': seq<Sys>, steps': seq<Step>, s': Sys)
    requires At(ss, steps, s) && h in s.nodes && x in s.nodes && x in s.members && h != x && s.nodes[h].outbox == []
    requires s.nodes[x] == Node(Joiner(x, h, n), [], 0, [], [])
    requires s.nodes[h].end.writing ==
      [(x, Pake2(y)), (x, KeyGrant(Wrap(DerivePair(n, y, x, h), s.nodes[h].end.v.groupKey, ROLE_MEMBER, x)))]
    ensures At(ss', steps', s')
    ensures s'.nodes.Keys == s.nodes.Keys && s' == s.(nodes := s'.nodes, nonce := s.nonce + 2)
    ensures s'.nodes[h] == s.nodes[h].(end := s.nodes[h].end.(writing := []))
    ensures |s'.nodes[x].stream| == 2
    ensures s'.nodes[x] == Node(Seated(x, h, n, y, s.nodes[h].end.v.groupKey), s'.nodes[x].stream, 2, [], [])
    ensures forall z :: z in s.nodes && z != h && z != x ==> s'.nodes[z] == s.nodes[z]
  {
    var a, b := s.nodes[h].end.writing[0].1, s.nodes[h].end.writing[1].1;
    assert s.nodes[h].end.writing == [(x, a)] + [(x, b)];
    ss', steps', s' := Handover(ss, steps, s, h, x, a, [(x, b)]);
    assert [(x, b)] == [(x, b)] + [];
    ss', steps', s' := Handover(ss', steps', s', h, x, b, []);
    assert s'.nodes[x].stream == [Direct(h, x, a), Direct(h, x, b)];
    ss', steps', s' := ReadOne(ss', steps', s', x, Direct(h, x, a), ROLE_MEMBER);
    ss', steps', s' := ReadOne(ss', steps', s', x, Direct(h, x, b), ROLE_MEMBER);
  }

  /** A joiner comes in and is keyed by the host. */
  lemma SeatOne(ss: seq<Sys>, steps: seq<Step>, s: Sys)
    returns (ss': seq<Sys>, steps': seq<Step>, s': Sys)
    requires At(ss, steps, s) && HostReady(s, s.relayHost) && s.nextId !in s.nodes
    ensures At(ss', steps', s')
    ensures var h, x, n := s.relayHost, s.nextId, s.nonce;
      && s'.members == s.members + {x} && s'.nextId == x + 1 && s'.relayHost == h && s'.minted == s.minted
      && s'.nonce == n + 5 && s'.nodes.Keys == s.nodes.Keys + {x} && HostReady(s', h)
      && s'.nodes[h].end == AnswerJoin(s.nodes[h].end, x, n, n + 2, ROLE_MEMBER).(writing := [])
      && |s'.nodes[x].stream| == 2
      && s'.nodes[x] == Node(Seated(x, h, n, n + 2, s.nodes[h].end.v.groupKey), s'.nodes[x].stream, 2, [], [])
      && forall z :: z in s.nodes && z != h ==>
           s'.nodes[z] == if z in s.members then Push(s.nodes[z], ParticipantJoined(x)) else s.nodes[z]
  {
    var h, x, n, fs := s.relayHost, s.nextId, s.nonce, s.nodes[s.relayHost].stream;
    ss', steps', s' := JoinOne(ss, steps, s);
    assert s'.nodes[h].stream[|fs|..] == [ParticipantJoined(x), Direct(x, h, Pake1(n, false))];
    ss', steps', s' := AnswerOne(ss', steps', s', h, x, n);
    ss', steps', s' := GrantOne(ss', steps', s', h, x, n, n + 2);
  }

  // ----- The only member leaves -----

  /** A departure that leaves the host alone does not rotate the key: the departed member still opens
      what the host seals next, and so what later joiners are granted. */
  lemma LoneDepartureKeepsKey() returns (ss: seq<Sys>, steps: seq<Step>, s: Sys)
    ensures Run(ss, steps) && s == ss[|ss| - 1]
    ensures 1 in s.nodes && 2 in s.nodes && 2 !in s.members && 2 in s.nodes[1].end.hist.seenLeft
    ensures IsHost(s.nodes[1].end) && Opens(s.nodes[2].end.v, Target(s.nodes[1].end))
  {
    ss, steps := Begin();
    ss, steps, s := SeatOne(ss, steps, Start());
    var t, e := Next(s, DoLeave(2)), s.nodes[1].end;
    ss, steps := Extend(ss, steps, s, DoLeave(2), t);
    assert e.pairwise - {2} == map[];
    ss, steps, s := ReadOne(ss, steps, t, 1, ParticipantLeft(2), ROLE_MEMBER);
  }

  // ----- A first flight that comes too early -----

  /** Members 2 and 3 are seated; 2 has yet to read that 3 arrived. */
  ghost predicate BothSeated(s: Sys) {
    && s.members == {1, 2, 3} && s.nodes.Keys == {1, 2, 3} && s.nextId == 4
    && s.nodes[2].end == Seated(2, 1, 0, 2, 0) && s.nodes[2].read == 2 && |s.nodes[2].stream| == 3
    && s.nodes[2].stream[2] == ParticipantJoined(3)
    && s.nodes[3].end == Seated(3, 1, 5, 7, 0) && s.nodes[3].read == 2 == |s.nodes[3].stream| && s.nodes[3].outbox == []
  }

  lemma SeatBoth() returns (ss: seq<Sys>, steps: seq<Step>, s: Sys)
    ensures At(ss, steps, s) && BothSeated(s)
  {
    ss, steps := Begin();
    ss, steps, s := SeatOne(ss, steps, Start());
    ss, steps, s := SeatOne(ss, steps, s);
  }

  /** The host has departed; 3 has read that and looks to 2, which has not. */
  ghost predicate Follows(s: Sys) {
    && s.members == {2, 3} && s.nodes.Keys == {1, 2, 3}
    && s.nodes[2].end == Seated(2, 1, 0, 2, 0) && s.nodes[2].read == 2 && |s.nodes[2].stream| == 4
    && s.nodes[2].stream[2] == ParticipantJoined(3) && s.nodes[2].stream[3] == ParticipantLeft(1)
    && s.nodes[3].end.v.hostId == 2 && MayAsk(s.nodes[3].end) && 2 !in s.nodes[3].end.hist.asked
    && s.nodes[3].end.flight == None
    && s.nodes[3].read == |s.nodes[3].stream| && s.nodes[3].outbox == []
  }

  lemma HostDeparts() returns (ss: seq<Sys>, steps: seq<Step>, s: Sys)
    ensures At(ss, steps, s) && Follows(s)
  {
    var t;
    ss, steps, s := SeatBoth();
    ss, steps, t := LeaveOne(ss, steps, s, 1);
    ss, steps, s := ReadOne(ss, steps, t, 3, ParticipantLeft(1), ROLE_MEMBER);
    t := Next(s, DoFollow(3, 2));
    ss, steps := Extend(ss, steps, s, DoFollow(3, 2), t);
    s := t;
  }

  /** The first flight of 3 is next in the stream of 2. */
  ghost predicate FlightWaits(s: Sys) {
    && s.members == {2, 3} && s.nodes.Keys == {1, 2, 3}
    && s.nodes[2].read == 4 && |s.nodes[2].stream| == 5 && IsAskFrom(s.nodes[2].stream[4], 3)
    && s.nodes[2].end.v == Seated(2, 1, 0, 2, 0).v && Idle(s.nodes[2].end)
    && s.nodes[3].read == |s.nodes[3].stream| && s.nodes[3].end.v.hostId == 2
  }

  lemma FlightArrives() returns (ss: seq<Sys>, steps: seq<Step>, s: Sys)
    ensures At(ss, steps, s) && FlightWaits(s)
  {
    var t;
    ss, steps, s := HostDeparts();
    ss, steps, s := AskOne(ss, steps, s, 3, 2);
    ss, steps, t := ReadOne(ss, steps, s, 2, ParticipantJoined(3), ROLE_MEMBER);
    ss, steps, s := ReadOne(ss, steps, t, 2, ParticipantLeft(1), ROLE_MEMBER);
  }

  /** The host of two members departs. Member 3 follows member 2 and asks it, and 2 reads that before
      it has promoted itself: the flight is dropped. */
  lemma EarlyFlight() returns (ss: seq<Sys>, steps: seq<Step>, k: nat)
    ensures Run(ss, steps) && k < |steps| && Pair(ss[k], 2, 3)
    ensures steps[k].DoRead? && steps[k].x == 2 && CanRead(ss[k], 2) && IsAskFrom(NextFrame(ss[k], 2), 3)
    ensures ss[k].nodes[2].end.v.keyed && ss[k].nodes[3].end.v.hostId == 2 && ss[k].nodes[2].end.v.role != ROLE_HOST
  {
    var s, t;
    ss, steps, s := FlightArrives();
    k := |ss| - 1;
    ss, steps, t := ReadOne(ss, steps, s, 2, NextFrame(s, 2), ROLE_MEMBER);
  }

  // ----- A first flight that crosses a reply -----

  /** The end of `x` is `e`, it has still to read `fs`, and all it wrote has been routed. */
  ghost predicate Has(s: Sys, x: Id, e: End, fs: seq<Frame>) {
    && x in s.nodes && s.nodes[x].end == e && s.nodes[x].outbox == []
    && s.nodes[x].read <= |s.nodes[x].stream| && s.nodes[x].stream[s.nodes[x].read..] == fs
  }

  /** Everybody but those two is as before. */
  ghost predicate Rest(s: Sys, x: Id, y: Id, s': Sys) {
    && s'.members == s.members && s'.nodes.Keys == s.nodes.Keys && s'.nextId == s.nextId
    && forall z :: z in s.nodes && z != x && z != y ==> s'.nodes[z] == s.nodes[z]
  }

  lemma TakeOne(ss: seq<Sys>, steps: seq<Step>, s: Sys, x: Id, e: End, f: Frame, fs: seq<Frame>)
    returns (ss': seq<Sys>, steps': seq<Step>, s': Sys)
    requires At(ss, steps, s) && Has(s, x, e, [f] + fs) && Idle(e) && !e.v.failed && !Rotates(e, f)
    ensures At(ss', steps', s') && Has(s', x, Receive(e, f, s.minted, s.nonce, ROLE_MEMBER, []), fs) && Rest(s, x, x, s')
    ensures s'.minted == s.minted && s'.nonce == s.nonce + 1
  {
    var n := s.nodes[x];
    assert n.stream[n.read..][0] == f;
    ss', steps', s' := ReadOne(ss, steps, s, x, f, ROLE_MEMBER);
    assert n.stream[n.read + 1..] == n.stream[n.read..][1..] == fs;
  }

  /** An end that is not host reads of a departure. */
  lemma ReadLeft(ss: seq<Sys>, steps: seq<Step>, s: Sys, x: Id, e: End, who: Id, fs: seq<Frame>)
    returns (ss': seq<Sys>, steps': seq<Step>, s': Sys)
    requires At(ss, steps, s) && Has(s, x, e, [ParticipantLeft(who)] + fs) && Idle(e) && !e.v.failed && e.v.keyed && !IsHost(e)
    ensures At(ss', steps', s') && Has(s', x, After(e, who, s.minted), fs) && Rest(s, x, x, s')
    ensures s'.minted == s.minted && s'.nonce == s.nonce + 1
  {
    ss', steps', s' := TakeOne(ss, steps, s, x, e, ParticipantLeft(who), fs);
  }

  lemma GiveOne(ss: seq<Sys>, steps: seq<Step>, s: Sys, h: Id, e: End, fs: seq<Frame>, x: Id, d: End, gs: seq<Frame>, p: Payload, rest: seq<(Id, Payload)>)
    returns (ss': seq<Sys>, steps': seq<Step>, s': Sys)
    requires At(ss, steps, s) && Has(s, h, e, fs) && Has(s, x, d, gs) && h != x && x in s.members && e.writing == [(x, p)] + rest
    ensures At(ss', steps', s') && Has(s', h, e.(writing := rest), fs) && Has(s', x, d, gs + [Direct(h, x, p)]) && Rest(s, h, x, s')
    ensures s'.minted == s.minted && s'.nonce == s.nonce
  {
    var n := s.nodes[x];
    ss', steps', s' := Handover(ss, steps, s, h, x, p, rest);
    assert (n.stream + [Direct(h, x, p)])[n.read..] == n.stream[n.read..] + [Direct(h, x, p)];
  }

  lemma DoOne(ss: seq<Sys>, steps: seq<Step>, s: Sys, a: Step, x: Id, e: End, fs: seq<Frame>)
    returns (ss': seq<Sys>, steps': seq<Step>, s': Sys)
    requires At(ss, steps, s) && Has(s, x, e, fs) && Enabled(s, a) && Actor(a) == Some(x)
    requires a.DoPromote? || a.DoRotate? || a.DoFollow? || a.DoAsk? || a.DoDerive? || a.DoCommit? || a.DoSwap?
    ensures At(ss', steps', s') && Has(s', x, EndAfter(s, a), fs) && Rest(s, x, x, s')
    ensures s'.minted == s.minted + (if a.DoRotate? then 1 else 0) && s'.nonce == s.nonce + (if a.DoAsk? then 1 else 0)
    ensures steps' == steps + [a] && ss' == ss + [s']
  {
    s' := Next(s, a);
    ss', steps' := Extend(ss, steps, s, a, s');
  }

  lemma FlyTo(ss: seq<Sys>, steps: seq<Step>, s: Sys, m: Id, e: End, fs: seq<Frame>, h: Id, d: End, gs: seq<Frame>, x: nat)
    returns (ss': seq<Sys>, steps': seq<Step>, s': Sys)
    requires At(ss, steps, s) && Has(s, m, e, fs) && Has(s, h, d, gs) && h != m && h in s.members && e.flight == Some((h, x))
    ensures At(ss', steps', s') && Has(s', m, e.(flight := None), fs) && Has(s', h, d, gs + [Direct(m, h, RekeyPake1(x))])
    ensures Rest(s, m, h, s') && s'.minted == s.minted && s'.nonce == s.nonce
  {
    var n := s.nodes[h];
    ss', steps', s' := FlyOne(ss, steps, s, m, h, x);
    assert (n.stream + [Direct(m, h, RekeyPake1(x))])[n.read..] == n.stream[n.read..] + [Direct(m, h, RekeyPake1(x))];
  }

  lemma LeaveOne(ss: seq<Sys>, steps: seq<Step>, s: Sys, x: Id)
    returns (ss': seq<Sys>, steps': seq<Step>, s': Sys)
    requires At(ss, steps, s) && x in s.members && s.members <= s.nodes.Keys && 0 !in s.members
    ensures At(ss', steps', s') && s'.members == s.members - {x} && s'.nodes.Keys == s.nodes.Keys && s'.nextId == s.nextId
    ensures s'.minted == s.minted && s'.nonce == s.nonce && s'.nodes[x] == s.nodes[x]
    ensures forall y :: y in s.members && y != x ==> s'.nodes[y] == Push(s.nodes[y], ParticipantLeft(x))
  {
    s' := Next(s, DoLeave(x));
    ss', steps' := Extend(ss, steps, s, DoLeave(x), s');
  }

  lemma Told(s: Sys, y: Id, e: End, fs: seq<Frame>, f: Frame, s': Sys)
    requires Has(s, y, e, fs) && y in s'.nodes && s'.nodes[y] == Push(s.nodes[y], f)
    ensures Has(s', y, e, fs + [f])
  {
    var n := s.nodes[y];
    assert (n.stream + [f])[n.read..] == n.stream[n.read..] + [f];
  }

  /** A first flight to somebody who is no longer a member goes nowhere. */
  lemma FlyLost(ss: seq<Sys>, steps: seq<Step>, s: Sys, m: Id, e: End, fs: seq<Frame>, h: Id, x: nat)
    returns (ss': seq<Sys>, steps': seq<Step>, s': Sys)
    requires At(ss, steps, s) && Has(s, m, e, fs) && h !in s.members && e.flight == Some((h, x))
    ensures At(ss', steps', s') && Has(s', m, e.(flight := None), fs) && Rest(s, m, m, s')
    ensures s'.minted == s.minted && s'.nonce == s.nonce
  {
    var o := ToOne(h, RekeyPake1(x));
    assert [] + [o] == [o] && [o][1..] == [];
    var t := Next(s, DoFly(m));
    ss', steps' := Extend(ss, steps, s, DoFly(m), t);
    s' := Next(t, DoRoute(m));
    ss', steps' := Extend(ss', steps', t, DoRoute(m), s');
  }

  // The four ends as they are seated by participant 1.
  const SEATED2 := Seated(2, 1, 0, 2, 0)
  const SEATED3 := Seated(3, 1, 5, 7, 0)
  const SEATED4 := Seated(4, 1, 10, 12, 0)

  function After(e: End, who: Id, minted: nat): End {
    HandleLeft(e, who, minted, [])
  }

  ghost predicate Three(s: Sys, minted: nat, nonce: nat) {
    s.members == {2, 3, 4} && s.nodes.Keys == {1, 2, 3, 4} && s.nextId == 5 && s.minted == minted && s.nonce == nonce
  }

  lemma SeatThree() returns (ss: seq<Sys>, steps: seq<Step>, s: Sys)
    ensures At(ss, steps, s) && s.members == {1, 2, 3, 4} && s.nodes.Keys == {1, 2, 3, 4} && s.nextId == 5
    ensures s.minted == 1 && s.nonce == 15
    ensures Has(s, 2, SEATED2, [ParticipantJoined(3), ParticipantJoined(4)])
    ensures Has(s, 3, SEATED3, [ParticipantJoined(4)]) && Has(s, 4, SEATED4, [])
  {
    ss, steps := Begin();
    ss, steps, s := SeatOne(ss, steps, Start());
    ss, steps, s := SeatOne(ss, steps, s);
    ss, steps, s := SeatOne(ss, steps, s);
  }

  /** The host departs. */
  lemma ThreeLeft() returns (ss: seq<Sys>, steps: seq<Step>, s: Sys)
    ensures At(ss, steps, s) && Three(s, 1, 15)
    ensures Has(s, 2, SEATED2, [ParticipantJoined(3), ParticipantJoined(4), ParticipantLeft(1)])
    ensures Has(s, 3, SEATED3, [ParticipantJoined(4), ParticipantLeft(1)]) && Has(s, 4, SEATED4, [ParticipantLeft(1)])
  {
    var t;
    ss, steps, t := SeatThree();
    var j3, j4, f := ParticipantJoined(3), ParticipantJoined(4), ParticipantLeft(1);
    ss, steps, s := LeaveOne(ss, steps, t, 1);
    Told(t, 2, SEATED2, [j3, j4], f, s);
    Told(t, 3, SEATED3, [j4], f, s);
    Told(t, 4, SEATED4, [], f, s);
    assert [j3, j4] + [f] == [j3, j4, f] && [j4] + [f] == [j4, f] && [] + [f] == [f];
  }

  // Participant 2, promoted after the first departure, and its answer to 4.
  const HOST2 := RotatedForMigration(Promoted(After(SEATED2, 1, 1)), 1)
  const ANSWERING2 := AnswerRekey(HOST2, 4, 19, 20)

  // Participant 4: following 2, having asked it, and taking in its reply.
  const FOLLOWING4 := Followed(After(SEATED4, 1, 2), 2)
  const ASKED4 := Asked(FOLLOWING4, 19)
  const WAITING4 := ASKED4.(flight := None)
  const TAKING4 := After(WAITING4, 2, 2).(commit := Some(Derive(19, 20)))

  // Participant 4 again: it asks 3 before it has committed the reply of 2.
  const CROSSING4 := Asked(Followed(TAKING4, 3), 23)
  const DEAF4 := Committed(Derived(CROSSING4.(flight := None)))

  // Participant 3: following 2 in vain, then promoted itself, and its answer to 4.
  const FOLLOWING3 := Followed(After(SEATED3, 1, 2), 2)
  const LOST3 := Asked(FOLLOWING3, 26).(flight := None)
  const HOST3 := RotatedForMigration(Promoted(After(LOST3, 2, 2)), 2)
  const ANSWERING3 := AnswerRekey(HOST3, 4, 23, 28)

  const LEFT1 := ParticipantLeft(1)
  const LEFT2 := ParticipantLeft(2)
  const ASK2 := Direct(4, 2, RekeyPake1(19))
  const REPLY2 := Direct(2, 4, RekeyPake2(20))
  const ASK3 := Direct(4, 3, RekeyPake1(23))

  /** 2 promotes itself and rotates. */
  lemma TwoPromoted() returns (ss: seq<Sys>, steps: seq<Step>, s: Sys)
    ensures At(ss, steps, s) && Three(s, 2, 18) && Has(s, 2, HOST2, [])
    ensures Has(s, 3, SEATED3, [ParticipantJoined(4), LEFT1]) && Has(s, 4, SEATED4, [LEFT1])
  {
    ss, steps, s := ThreeLeft();
    var j3, j4 := ParticipantJoined(3), ParticipantJoined(4);
    assert [j3, j4, LEFT1] == [j3] + [j4, LEFT1] && [j4, LEFT1] == [j4] + [LEFT1] && [LEFT1] == [LEFT1] + [];
    ss, steps, s := TakeOne(ss, steps, s, 2, SEATED2, j3, [j4, LEFT1]);
    ss, steps, s := TakeOne(ss, steps, s, 2, SEATED2, j4, [LEFT1]);
    ss, steps, s := ReadLeft(ss, steps, s, 2, SEATED2, 1, []);
    ss, steps, s := PromoteOne(ss, steps, s, 2, After(SEATED2, 1, 1), []);
  }

  /** 4 follows 2 and asks it. */
  lemma FourAsks() returns (ss: seq<Sys>, steps: seq<Step>, s: Sys)
    ensures At(ss, steps, s) && Three(s, 2, 20) && Has(s, 2, HOST2, [ASK2])
    ensures Has(s, 3, SEATED3, [ParticipantJoined(4), LEFT1]) && Has(s, 4, WAITING4, [])
  {
    ss, steps, s := TwoPromoted();
    assert [LEFT1] == [LEFT1] + [] && [] + [ASK2] == [ASK2];
    ss, steps, s := ReadLeft(ss, steps, s, 4, SEATED4, 1, []);
    ss, steps, s := DoOne(ss, steps, s, DoFollow(4, 2), 4, After(SEATED4, 1, 2), []);
    ss, steps, s := DoOne(ss, steps, s, DoAsk(4), 4, FOLLOWING4, []);
    ss, steps, s := FlyTo(ss, steps, s, 4, ASKED4, [], 2, HOST2, [], 19);
  }

  ghost predicate LastTwo(s: Sys, minted: nat, nonce: nat) {
    s.members == {3, 4} && s.nodes.Keys == {1, 2, 3, 4} && s.nextId == 5 && s.minted == minted && s.nonce == nonce
  }

  /** A host reads a first flight of a survivor. */
  lemma AnswerAsk(ss: seq<Sys>, steps: seq<Step>, s: Sys, h: Id, e: End, m: Id, x: nat)
    returns (ss': seq<Sys>, steps': seq<Step>, s': Sys)
    requires At(ss, steps, s) && Has(s, h, e, [Direct(m, h, RekeyPake1(x))]) && Idle(e) && !e.v.failed && e.v.keyed && IsHost(e)
    ensures At(ss', steps', s') && Has(s', h, AnswerRekey(e, m, x, s.nonce), []) && Rest(s, h, h, s')
    ensures s'.minted == s.minted && s'.nonce == s.nonce + 1
  {
    var f := Direct(m, h, RekeyPake1(x));
    assert [f] == [f] + [];
    ss', steps', s' := TakeOne(ss, steps, s, h, e, f, []);
  }

  /** 2 has the answer ready. */
  lemma TwoAnswers() returns (ss: seq<Sys>, steps: seq<Step>, s: Sys)
    ensures At(ss, steps, s) && Three(s, 2, 21) && Has(s, 2, ANSWERING2, [])
    ensures Has(s, 3, SEATED3, [ParticipantJoined(4), LEFT1]) && Has(s, 4, WAITING4, [])
  {
    ss, steps, s := FourAsks();
    ss, steps, s := AnswerAsk(ss, steps, s, 2, HOST2, 4, 19);
  }

  /** It is removed before it has sent it. */
  lemma TwoRemoved() returns (ss: seq<Sys>, steps: seq<Step>, s: Sys)
    ensures At(ss, steps, s) && LastTwo(s, 2, 21) && Has(s, 2, ANSWERING2, [])
    ensures Has(s, 3, SEATED3, [ParticipantJoined(4), LEFT1, LEFT2]) && Has(s, 4, WAITING4, [LEFT2])
  {
    var j4 := ParticipantJoined(4);
    ss, steps, s := TwoAnswers();
    assert [] + [LEFT2] == [LEFT2] && [j4, LEFT1] + [LEFT2] == [j4, LEFT1, LEFT2];
    ss, steps, s := LeaveOfTwo(ss, steps, s, ANSWERING2, SEATED3, [j4, LEFT1], WAITING4, []);
  }

  lemma LeaveOfTwo(ss: seq<Sys>, steps: seq<Step>, s: Sys, e2: End, e3: End, fs: seq<Frame>, e4: End, gs: seq<Frame>)
    returns (ss': seq<Sys>, steps': seq<Step>, s': Sys)
    requires At(ss, steps, s) && Three(s, 2, 21) && Has(s, 2, e2, []) && Has(s, 3, e3, fs) && Has(s, 4, e4, gs)
    ensures At(ss', steps', s') && LastTwo(s', 2, 21) && Has(s', 2, e2, [])
    ensures Has(s', 3, e3, fs + [LEFT2]) && Has(s', 4, e4, gs + [LEFT2])
  {
    ss', steps', s' := LeaveOne(ss, steps, s, 2);
    Told(s, 3, e3, fs, LEFT2, s');
    Told(s, 4, e4, gs, LEFT2, s');
  }

  /** Its reply is routed after the notice of that. */
  lemma LateReply() returns (ss: seq<Sys>, steps: seq<Step>, s: Sys)
    ensures At(ss, steps, s) && LastTwo(s, 2, 21)
    ensures Has(s, 3, SEATED3, [ParticipantJoined(4), LEFT1, LEFT2]) && Has(s, 4, WAITING4, [LEFT2, REPLY2])
  {
    ss, steps, s := TwoRemoved();
    var grant := Rekey(Wrap(PairKey(19, 20, 2, 4), 1, ROLE_NONE, 4));
    assert ANSWERING2.writing == [(4, RekeyPake2(20))] + [(4, grant)] && [LEFT2] + [REPLY2] == [LEFT2, REPLY2];
    ss, steps, s := GiveOne(ss, steps, s, 2, ANSWERING2, [], 4, WAITING4, [LEFT2], RekeyPake2(20), [(4, grant)]);
  }

  /** 4 reads both, and is between the check and the commit of the reply. */
  lemma FourChecks() returns (ss: seq<Sys>, steps: seq<Step>, s: Sys)
    ensures At(ss, steps, s) && LastTwo(s, 2, 23)
    ensures Has(s, 3, SEATED3, [ParticipantJoined(4), LEFT1, LEFT2]) && Has(s, 4, TAKING4, [])
  {
    ss, steps, s := LateReply();
    assert [LEFT2, REPLY2] == [LEFT2] + [REPLY2] && [REPLY2] == [REPLY2] + [];
    ss, steps, s := ReadLeft(ss, steps, s, 4, WAITING4, 2, [REPLY2]);
    ss, steps, s := TakeOne(ss, steps, s, 4, After(WAITING4, 2, 2), REPLY2, []);
  }

  /** Its routing goroutine turns to 3. */
  lemma FourTurns() returns (ss: seq<Sys>, steps: seq<Step>, s: Sys)
    ensures At(ss, steps, s) && LastTwo(s, 2, 24)
    ensures Has(s, 3, SEATED3, [ParticipantJoined(4), LEFT1, LEFT2]) && Has(s, 4, CROSSING4, [])
  {
    ss, steps, s := FourChecks();
    ss, steps, s := DoOne(ss, steps, s, DoFollow(4, 3), 4, TAKING4, []);
    ss, steps, s := DoOne(ss, steps, s, DoAsk(4), 4, Followed(TAKING4, 3), []);
  }

  /** The flight goes out, and the commit goes ahead. */
  lemma FourCrosses() returns (ss: seq<Sys>, steps: seq<Step>, s: Sys)
    ensures At(ss, steps, s) && LastTwo(s, 2, 24)
    ensures Has(s, 3, SEATED3, [ParticipantJoined(4), LEFT1, LEFT2, ASK3]) && Has(s, 4, DEAF4, [])
  {
    var j4 := ParticipantJoined(4);
    ss, steps, s := FourTurns();
    ss, steps, s := FlyTo(ss, steps, s, 4, CROSSING4, [], 3, SEATED3, [j4, LEFT1, LEFT2], 23);
    assert [j4, LEFT1, LEFT2] + [ASK3] == [j4, LEFT1, LEFT2, ASK3];
    ss, steps, s := DoOne(ss, steps, s, DoDerive(4), 4, CROSSING4.(flight := None), []);
    ss, steps, s := DoOne(ss, steps, s, DoCommit(4), 4, Derived(CROSSING4.(flight := None)), []);
  }

  /** 3 reads of the first departure. */
  lemma ThreeReads() returns (ss: seq<Sys>, steps: seq<Step>, s: Sys)
    ensures At(ss, steps, s) && LastTwo(s, 2, 26) && Has(s, 3, After(SEATED3, 1, 2), [LEFT2, ASK3]) && Has(s, 4, DEAF4, [])
  {
    var j4 := ParticipantJoined(4);
    ss, steps, s := FourCrosses();
    assert [j4, LEFT1, LEFT2, ASK3] == [j4] + [LEFT1, LEFT2, ASK3] && [LEFT1, LEFT2, ASK3] == [LEFT1] + [LEFT2, ASK3];
    ss, steps, s := TakeOne(ss, steps, s, 3, SEATED3, j4, [LEFT1, LEFT2, ASK3]);
    ss, steps, s := ReadLeft(ss, steps, s, 3, SEATED3, 1, [LEFT2, ASK3]);
  }

  /** It follows 2, whose departure it has yet to read, and asks it in vain. */
  lemma ThreeFollows() returns (ss: seq<Sys>, steps: seq<Step>, s: Sys)
    ensures At(ss, steps, s) && LastTwo(s, 2, 27) && Has(s, 3, LOST3, [LEFT2, ASK3]) && Has(s, 4, DEAF4, [])
  {
    ss, steps, s := ThreeReads();
    ss, steps, s := AskInVain(ss, steps, s, 3, After(SEATED3, 1, 2), [LEFT2, ASK3], 2);
  }

  /** An end follows somebody who is no longer a member, and its first flight goes nowhere. */
  lemma AskInVain(ss: seq<Sys>, steps: seq<Step>, s: Sys, m: Id, e: End, fs: seq<Frame>, h: Id)
    returns (ss': seq<Sys>, steps': seq<Step>, s': Sys)
    requires At(ss, steps, s) && Has(s, m, e, fs) && h !in s.members && h != m && h < s.nextId
    requires Bereft(e) && h !in e.hist.asked && e.v.self == m
    ensures At(ss', steps', s') && Has(s', m, Asked(Followed(e, h), s.nonce).(flight := None), fs) && Rest(s, m, m, s')
    ensures s'.minted == s.minted && s'.nonce == s.nonce + 1
  {
    ss', steps', s' := DoOne(ss, steps, s, DoFollow(m, h), m, e, fs);
    ss', steps', s' := DoOne(ss', steps', s', DoAsk(m), m, Followed(e, h), fs);
    ss', steps', s' := FlyLost(ss', steps', s', m, Asked(Followed(e, h), s.nonce), fs, h, s.nonce);
  }

  /** 3 reads of the second departure. */
  lemma ThreeBereft() returns (ss: seq<Sys>, steps: seq<Step>, s: Sys)
    ensures At(ss, steps, s) && LastTwo(s, 2, 28) && Has(s, 3, After(LOST3, 2, 2), [ASK3]) && Has(s, 4, DEAF4, [])
  {
    ss, steps, s := ThreeFollows();
    assert [LEFT2, ASK3] == [LEFT2] + [ASK3];
    ss, steps, s := ReadLeft(ss, steps, s, 3, LOST3, 2, [ASK3]);
  }

  /** It promotes itself and rotates. */
  lemma ThreePromoted() returns (ss: seq<Sys>, steps: seq<Step>, s: Sys)
    ensures At(ss, steps, s) && LastTwo(s, 3, 28) && Has(s, 3, HOST3, [ASK3]) && Has(s, 4, DEAF4, [])
  {
    ss, steps, s := ThreeBereft();
    ss, steps, s := PromoteOne(ss, steps, s, 3, After(LOST3, 2, 2), [ASK3]);
  }

  /** An end without a host promotes itself and rotates. */
  lemma PromoteOne(ss: seq<Sys>, steps: seq<Step>, s: Sys, x: Id, e: End, fs: seq<Frame>)
    returns (ss': seq<Sys>, steps': seq<Step>, s': Sys)
    requires At(ss, steps, s) && Has(s, x, e, fs) && Bereft(e)
    ensures At(ss', steps', s') && Has(s', x, RotatedForMigration(Promoted(e), s.minted), fs) && Rest(s, x, x, s')
    ensures s'.minted == s.minted + 1 && s'.nonce == s.nonce
  {
    ss', steps', s' := DoOne(ss, steps, s, DoPromote(x), x, e, fs);
    ss', steps', s' := DoOne(ss', steps', s', DoRotate(x), x, Promoted(e), fs);
  }

  /** It answers 4. */
  lemma ThreeAnswers() returns (ss: seq<Sys>, steps: seq<Step>, s: Sys)
    ensures At(ss, steps, s) && LastTwo(s, 3, 29) && Has(s, 3, ANSWERING3, []) && Has(s, 4, DEAF4, [])
  {
    ss, steps, s := ThreePromoted();
    ss, steps, s := AnswerAsk(ss, steps, s, 3, HOST3, 4, 23);
  }

  const REPLY3 := RekeyPake2(28)
  const GRANT3 := Rekey(Wrap(PairKey(23, 28, 3, 4), 2, ROLE_NONE, 4))

  lemma ReplyArrives() returns (ss: seq<Sys>, steps: seq<Step>, s: Sys)
    ensures At(ss, steps, s) && LastTwo(s, 3, 29) && Has(s, 3, ANSWERING3.(writing := [(4, GRANT3)]), [])
    ensures Has(s, 4, DEAF4, [Direct(3, 4, REPLY3)])
  {
    ss, steps, s := ThreeAnswers();
    assert ANSWERING3.writing == [(4, REPLY3)] + [(4, GRANT3)] && [] + [Direct(3, 4, REPLY3)] == [Direct(3, 4, REPLY3)];
    ss, steps, s := GiveOne(ss, steps, s, 3, ANSWERING3, [], 4, DEAF4, [], REPLY3, [(4, GRANT3)]);
  }

  lemma AnswerArrives() returns (ss: seq<Sys>, steps: seq<Step>, s: Sys)
    ensures At(ss, steps, s) && LastTwo(s, 3, 29) && Has(s, 3, ANSWERING3.(writing := []), [])
    ensures Has(s, 4, DEAF4, [Direct(3, 4, REPLY3), Direct(3, 4, GRANT3)])
  {
    ss, steps, s := ReplyArrives();
    var half, f, g := ANSWERING3.(writing := [(4, GRANT3)]), Direct(3, 4, REPLY3), Direct(3, 4, GRANT3);
    assert [(4, GRANT3)] == [(4, GRANT3)] + [] && [f] + [g] == [f, g];
    ss, steps, s := GiveOne(ss, steps, s, 3, half, [], 4, DEAF4, [f], GRANT3, []);
  }

  /** 4 reads the whole answer and makes nothing of it. */
  lemma FourDeaf() returns (ss: seq<Sys>, steps: seq<Step>, s: Sys)
    ensures At(ss, steps, s) && LastTwo(s, 3, 31) && Has(s, 3, ANSWERING3.(writing := []), []) && Has(s, 4, DEAF4, [])
  {
    ss, steps, s := AnswerArrives();
    var f, g := Direct(3, 4, REPLY3), Direct(3, 4, GRANT3);
    assert [f, g] == [f] + [g] && [g] == [g] + [];
    DeafToBoth();
    ss, steps, s := IgnoreOne(ss, steps, s, 4, DEAF4, 3, REPLY3, [g]);
    ss, steps, s := IgnoreOne(ss, steps, s, 4, DEAF4, 3, GRANT3, []);
  }

  lemma DeafToBoth()
    ensures DEAF4.v.keyed && !DEAF4.v.failed && Idle(DEAF4) && Decides(DEAF4.v, REPLY3) == None && Decides(DEAF4.v, GRANT3) == None
  {
  }

  /** A member checks a payload and decides on nothing. */
  lemma IgnoreOne(ss: seq<Sys>, steps: seq<Step>, s: Sys, x: Id, e: End, h: Id, p: Payload, fs: seq<Frame>)
    returns (ss': seq<Sys>, steps': seq<Step>, s': Sys)
    requires At(ss, steps, s) && Has(s, x, e, [Direct(h, x, p)] + fs) && Idle(e) && e.v.keyed && !e.v.failed
    requires Decides(e.v, p) == None && !IsAsk(p)
    ensures At(ss', steps', s') && Has(s', x, e, fs) && Rest(s, x, x, s') && s'.minted == s.minted && s'.nonce == s.nonce + 1
  {
    ss', steps', s' := TakeOne(ss, steps, s, x, e, Direct(h, x, p), fs);
  }

  /** The outcome: 4 is in the pairwise map of its host 3 and has read everything there is to read, and
      it is still on the first key and cannot open what 3 seals. */
  lemma CrossedStaysBehind() returns (ss: seq<Sys>, steps: seq<Step>, i: nat)
    ensures Run(ss, steps) && i < |ss| && AllTakenIn(ss[i], 3, 4) && 4 in ss[i].nodes[3].end.pairwise
    ensures Crossed(ss, steps, i, 4, 3)
    ensures ss[i].nodes[4].end.v.hostId == 3 && !Opens(ss[i].nodes[4].end.v, ss[i].nodes[3].end.v.groupKey)
  {
    var s;
    ss, steps, s := FourDeaf();
    i := |ss| - 1;
    CrossedExactly(ss, steps, i, 4, 3);
    assert Coming(4, s.nodes[3].end, Pipe(s.nodes[3], s.nodes[4], 3, 4)) == [];
  }

  // ----- A re-wrap that overruns a rotation -----

  // The host of 2 and 3, and the same when it has read that 3 departed.
  const HOST_OF_2 := AnswerJoin(Creator(1, 0), 2, 0, 2, ROLE_MEMBER).(writing := [])
  const HOST_OF_BOTH := AnswerJoin(HOST_OF_2, 3, 5, 7, ROLE_MEMBER).(writing := [])
  const REWRAP := Rekey(Wrap(PairKey(0, 2, 1, 2), 1, ROLE_NONE, 2))
  const ROTATING := HOST_OF_BOTH.(
    pairwise := HOST_OF_BOTH.pairwise - {3}, joiners := HOST_OF_BOTH.joiners - {3},
    writing := [(2, REWRAP)], swapTo := Some(1),
    hist := HOST_OF_BOTH.hist.(seenLeft := HOST_OF_BOTH.hist.seenLeft[3 := 1], minted := HOST_OF_BOTH.hist.minted + {1}))
  const ROTATED := ROTATING.(writing := [], v := Install(ROTATING.v, 1), swapTo := None)

  // Participant 2, when it has read of both departures, and when it takes in the late re-wrap.
  const ALONE2 := After(After(SEATED2, 3, 2), 1, 2)
  const TAKING2 := ALONE2.(commit := Some(NewKey(1, ROLE_NONE, 1)))

  lemma SeatPair() returns (ss: seq<Sys>, steps: seq<Step>, s: Sys)
    ensures At(ss, steps, s) && s.members == {1, 2, 3} && s.nodes.Keys == {1, 2, 3} && s.nextId == 4 && s.minted == 1
    ensures Has(s, 1, HOST_OF_BOTH, []) && Has(s, 2, SEATED2, [ParticipantJoined(3)])
  {
    ss, steps := Begin();
    ss, steps, s := SeatOne(ss, steps, Start());
    ss, steps, s := SeatOne(ss, steps, s);
  }

  /** 3 departs, and the host reads that and starts to rotate. */
  lemma StartsRotating() returns (ss: seq<Sys>, steps: seq<Step>, s: Sys)
    ensures At(ss, steps, s) && s.members == {1, 2} && s.nodes.Keys == {1, 2, 3} && s.minted == 2
    ensures Has(s, 1, ROTATING, []) && Has(s, 2, SEATED2, [ParticipantJoined(3), ParticipantLeft(3)])
  {
    var t, u;
    var j, l := ParticipantJoined(3), ParticipantLeft(3);
    ss, steps, t := SeatPair();
    ss, steps, u := LeaveOne(ss, steps, t, 3);
    Told(t, 1, HOST_OF_BOTH, [], l, u);
    Told(t, 2, SEATED2, [j], l, u);
    assert [] + [l] == [l] && [j] + [l] == [j, l];
    Rewrapped();
    ss, steps, s := RotateOne(ss, steps, u, 1, HOST_OF_BOTH, 3, [(2, REWRAP)]);
  }

  lemma Rewrapped()
    ensures Rotates(HOST_OF_BOTH, ParticipantLeft(3)) && Covers([(2, REWRAP)], HOST_OF_BOTH.pairwise - {3}, 1)
    ensures Idle(HOST_OF_BOTH) && !HOST_OF_BOTH.v.failed && HOST_OF_BOTH.v.keyed
    ensures HandleLeft(HOST_OF_BOTH, 3, 1, [(2, REWRAP)]) == ROTATING
  {
    var pairs := HOST_OF_BOTH.pairwise - {3};
    assert pairs == map[2 := PairKey(0, 2, 1, 2)];
    assert [(2, REWRAP)][0] == RekeyFor(pairs, 1, 2);
    assert 2 in pairs.Keys;
  }

  lemma RotateOne(ss: seq<Sys>, steps: seq<Step>, s: Sys, x: Id, e: End, who: Id, outs: seq<(Id, Payload)>)
    returns (ss': seq<Sys>, steps': seq<Step>, s': Sys)
    requires At(ss, steps, s) && Has(s, x, e, [ParticipantLeft(who)]) && Idle(e) && !e.v.failed && e.v.keyed
    requires Rotates(e, ParticipantLeft(who)) && Covers(outs, e.pairwise - {who}, s.minted)
    ensures At(ss', steps', s') && Has(s', x, HandleLeft(e, who, s.minted, outs), []) && Rest(s, x, x, s')
    ensures s'.minted == s.minted + 1
  {
    var n, a := s.nodes[x], DoRead(x, ROLE_MEMBER, outs);
    assert n.stream[n.read..][0] == ParticipantLeft(who);
    s' := Next(s, a);
    ss', steps' := Extend(ss, steps, s, a, s');
    assert n.stream[n.read + 1..] == n.stream[n.read..][1..] == [];
  }

  /** The host departs before its re-wrap is routed, and switches to the new key. */
  lemma LateRewrap() returns (ss: seq<Sys>, steps: seq<Step>, s: Sys)
    ensures At(ss, steps, s) && s.members == {2} && s.nodes.Keys == {1, 2, 3} && s.minted == 2
    ensures Has(s, 1, ROTATED, [])
    ensures Has(s, 2, SEATED2, [ParticipantJoined(3), ParticipantLeft(3), LEFT1, Direct(1, 2, REWRAP)])
  {
    var t;
    var j, l, f := ParticipantJoined(3), ParticipantLeft(3), Direct(1, 2, REWRAP);
    ss, steps, t := StartsRotating();
    ss, steps, s := LeaveOne(ss, steps, t, 1);
    Told(t, 2, SEATED2, [j, l], LEFT1, s);
    assert [j, l] + [LEFT1] == [j, l, LEFT1] && [j, l, LEFT1] + [f] == [j, l, LEFT1, f];
    assert ROTATING.writing == [(2, REWRAP)] + [];
    ss, steps, s := GiveOne(ss, steps, s, 1, ROTATING, [], 2, SEATED2, [j, l, LEFT1], REWRAP, []);
    ss, steps, s := DoOne(ss, steps, s, DoSwap(1), 1, ROTATING.(writing := []), []);
  }

  /** 2 reads of both departures. */
  lemma TwoAlone() returns (ss: seq<Sys>, steps: seq<Step>, s: Sys)
    ensures At(ss, steps, s) && s.members == {2} && s.nodes.Keys == {1, 2, 3} && s.minted == 2
    ensures Has(s, 1, ROTATED, []) && Has(s, 2, ALONE2, [Direct(1, 2, REWRAP)])
  {
    var j, l, f := ParticipantJoined(3), ParticipantLeft(3), Direct(1, 2, REWRAP);
    ss, steps, s := LateRewrap();
    assert [j, l, LEFT1, f] == [j] + [l, LEFT1, f] && [l, LEFT1, f] == [l] + [LEFT1, f] && [LEFT1, f] == [LEFT1] + [f];
    ss, steps, s := TakeOne(ss, steps, s, 2, SEATED2, j, [l, LEFT1, f]);
    ss, steps, s := ReadLeft(ss, steps, s, 2, SEATED2, 3, [LEFT1, f]);
    ss, steps, s := ReadLeft(ss, steps, s, 2, After(SEATED2, 3, 2), 1, [f]);
  }

  /** A member checks a payload of its host and decides on what to commit. */
  lemma CheckOne(ss: seq<Sys>, steps: seq<Step>, s: Sys, x: Id, e: End, p: Payload)
    returns (ss': seq<Sys>, steps': seq<Step>, s': Sys)
    requires At(ss, steps, s) && Has(s, x, e, [Direct(e.v.hostId, x, p)]) && Idle(e) && e.v.keyed && !e.v.failed && !IsAsk(p)
    ensures At(ss', steps', s') && Has(s', x, e.(commit := Decides(e.v, p)), []) && Rest(s, x, x, s') && s'.minted == s.minted
  {
    var f := Direct(e.v.hostId, x, p);
    assert [f] == [f] + [];
    ss', steps', s' := TakeOne(ss, steps, s, x, e, f, []);
  }

  lemma RewrapOpens()
    ensures ALONE2.v.hostId == 1 && Idle(ALONE2) && ALONE2.v.keyed && !ALONE2.v.failed
    ensures Decides(ALONE2.v, REWRAP) == Some(NewKey(1, ROLE_NONE, 1))
  {
  }

  /** It is between the check and the commit of the re-wrap. */
  lemma TwoChecks() returns (ss: seq<Sys>, steps: seq<Step>, s: Sys)
    ensures At(ss, steps, s) && s.members == {2} && s.nodes.Keys == {1, 2, 3} && s.minted == 2
    ensures Has(s, 1, ROTATED, []) && Has(s, 2, TAKING2, [])
  {
    ss, steps, s := TwoAlone();
    RewrapOpens();
    ss, steps, s := CheckOne(ss, steps, s, 2, ALONE2, REWRAP);
  }

  /** 2 promotes itself and rotates; then the commit goes ahead, and the departed host opens what its
      successor seals. */
  lemma RotationUndone() returns (ss: seq<Sys>, steps: seq<Step>, s: Sys)
    ensures Run(ss, steps) && s == ss[|ss| - 1] && 1 in s.nodes && 2 in s.nodes && 1 !in s.members
    ensures IsHost(s.nodes[2].end) && s.nodes[2].end.hist.minted == {2} && Opens(s.nodes[1].end.v, s.nodes[2].end.v.groupKey)
  {
    ss, steps, s := TwoChecks();
    ss, steps, s := PromoteOne(ss, steps, s, 2, TAKING2, []);
    ss, steps, s := DoOne(ss, steps, s, DoCommit(2), 2, RotatedForMigration(Promoted(TAKING2), 2), []);
  }
}
