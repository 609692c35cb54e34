/** What stays so once it has happened: departures, roles, and answers to a first PAKE flight. */
module SessionHistory {
  import opened Wire
  import opened Ends
  import opened Session
  import opened SessionPipes
  import opened KeyAgreement
  import opened SessionInv
  import opened SessionReads
  import opened SessionSteps
  import opened SessionRelay
  import opened SessionRuns
  import opened SessionResults

  // ----- Departed ends -----

  predicate WrapBelow(p: Payload, c: nat) {
    match p
    case KeyGrant(w) => w.key < c
    case Rekey(w) => w.key < c
    case _ => true
  }

  predicate FrameBelow(f: Frame, c: nat) {
    Sender(f).Some? ==> WrapBelow(Carried(f), c)
  }

  ghost predicate KeysBelow(e: End, c: nat) {
    && (forall k :: k in e.v.installed ==> k < c || k in e.hist.minted)
    && (e.swapTo.Some? ==> e.swapTo.value < c || e.swapTo.value in e.hist.minted)
    && (e.commit.Some? && e.commit.value.NewKey? ==> e.commit.value.key < c)
  }

  /** A departed end: all it holds, or will ever find in its stream, was minted before `c` or by
      itself. */
  ghost predicate Out(s: Sys, x: Id, c: nat) {
    && x in s.nodes && x !in s.members && x < s.nextId
    && s.nodes[x].read <= |s.nodes[x].stream|
    && (forall i :: 0 <= i < |s.nodes[x].stream| ==> FrameBelow(s.nodes[x].stream[i], c))
    && KeysBelow(s.nodes[x].end, c)
  }

  lemma OutStarts(s: Sys, x: Id)
    requires Inv(s) && x in s.nodes && x !in s.members
    ensures Out(s, x, s.minted)
  {
    assert NodeOk(s, x);
    var fs := s.nodes[x].stream;
    forall i | 0 <= i < |fs| ensures FrameBelow(fs[i], s.minted) { assert FrameOk(s, x, fs[i]); }
  }

  lemma StreamFrozen(s: Sys, a: Step, x: Id)
    requires Inv(s) && Enabled(s, a) && x in s.nodes && x !in s.members && x < s.nextId
    ensures var s' := Next(s, a); x in s'.nodes && x !in s'.members && s'.nodes[x].stream == s.nodes[x].stream
  {
  }

  lemma OutEnd(s: Sys, a: Step, x: Id, c: nat)
    requires Inv(s) && Enabled(s, a) && Out(s, x, c) && Actor(a) == Some(x)
    ensures KeysBelow(EndAfter(s, a), c)
  {
    if a.DoRead? {
      assert FrameBelow(NextFrame(s, x), c);
      OutReads(s, a, x, c);
    }
  }

  lemma OutReads(s: Sys, a: Step, x: Id, c: nat)
    requires Inv(s) && Enabled(s, a) && a.DoRead? && a.x == x && KeysBelow(s.nodes[x].end, c) && FrameBelow(NextFrame(s, x), c)
    ensures KeysBelow(EndAfter(s, a), c)
  {
  }

  lemma OutStays(s: Sys, a: Step, x: Id, c: nat)
    requires Inv(s) && Enabled(s, a) && Out(s, x, c) && NodeOk(Next(s, a), x)
    ensures Out(Next(s, a), x, c)
  {
    StreamFrozen(s, a, x);
    StepLater(s, a);
    if Actor(a) == Some(x) {
      OutEnd(s, a, x, c);
      ActorChanged(s, a);
    } else {
      OthersUnchanged(s, a, x);
    }
  }

  lemma {:induction false} OutForever(ss: seq<Sys>, steps: seq<Step>, i: nat, j: nat, x: Id)
    requires Run(ss, steps) && i <= j < |ss| && x in ss[i].nodes && x !in ss[i].members
    ensures Out(ss[j], x, ss[i].minted)
  {
    RunKeeps(ss, steps, j);
    if i == j {
      OutStarts(ss[i], x);
    } else {
      OutForever(ss, steps, i, j - 1, x);
      RunStep(ss, steps, j - 1);
      StreamFrozen(ss[j - 1], steps[j - 1], x);
      assert NodeOk(ss[j], x);
      OutStays(ss[j - 1], steps[j - 1], x, ss[i].minted);
    }
  }

  /** Forward secrecy of departures: a departed end never opens a frame under a key that somebody
      else mints after it is gone. */
  lemma DepartedLockedOut(ss: seq<Sys>, steps: seq<Step>, i: nat, j: nat, x: Id, h: Id, k: GroupKey)
    requires Run(ss, steps) && i <= j < |ss| && x in ss[i].nodes && x !in ss[i].members
    requires h in ss[j].nodes && h != x && k in ss[j].nodes[h].end.hist.minted && k >= ss[i].minted
    ensures x in ss[j].nodes && !Opens(ss[j].nodes[x].end.v, k)
  {
    OutForever(ss, steps, i, j, x);
    RunKeeps(ss, steps, j);
    RunMinters(ss, steps, j);
    assert Apart(ss[j], h, x);
    HasRing(ss[j], x);
    OpenIsInstalled(ss[j].nodes[x].end.v, k);
  }

  lemma OpenIsInstalled(v: KeyView, k: GroupKey)
    requires RingOk(v)
    ensures Opens(v, k) ==> k in v.installed
  {
    OpensExactly(v, k);
    if Opens(v, k) { var j := LastNineIndex(v.installed, k); }
  }

  /** The host reads a departure. The key it uses from then on is closed to the departed end exactly
      when somebody is left to re-wrap a new one to. */
  lemma LockedOutExactly(ss: seq<Sys>, steps: seq<Step>, i: nat, h: Id, x: Id)
    requires Run(ss, steps) && i < |steps| && steps[i].DoRead? && steps[i].x == h && h != x
    requires CanRead(ss[i], h) && NextFrame(ss[i], h) == ParticipantLeft(x) && IsHost(ss[i].nodes[h].end)
    requires x in ss[i].nodes && Opens(ss[i].nodes[x].end.v, ss[i].nodes[h].end.v.groupKey)
    ensures h in ss[i + 1].nodes && x in ss[i + 1].nodes
    ensures Opens(ss[i + 1].nodes[x].end.v, Target(ss[i + 1].nodes[h].end)) <==>
              (ss[i].nodes[h].end.pairwise - {x}).Keys == {}
  {
    var s, a := ss[i], steps[i];
    RunStep(ss, steps, i);
    assert NodeOk(s, h) && NodeOk(s, x);
    OthersUnchanged(s, a, x);
    OpenIsInstalled(s.nodes[x].end.v, s.minted);
  }

  // ----- Roles -----

  lemma RoleStep(s: Sys, a: Step, x: Id)
    requires Inv(s) && Enabled(s, a) && x in s.nodes
    ensures x in Next(s, a).nodes
    ensures var v, v' := s.nodes[x].end.v, Next(s, a).nodes[x].end.v;
      && (v.keyed ==> v'.keyed)
      && (v.keyed && a != DoPromote(x) ==> v'.role == v.role)
      && (v'.role == ROLE_HOST ==> v.role == ROLE_HOST || a == DoPromote(x))
      && (!v.keyed && v'.keyed ==> v'.role != ROLE_NONE)
  {
    StepLater(s, a);
    if Actor(a) == Some(x) {
      ActorChanged(s, a);
      assert NodeOk(s, x);
      if a.DoRead? { assert FrameOk(s, x, NextFrame(s, x)); }
    } else {
      OthersUnchanged(s, a, x);
    }
  }

  /** Once keyed, an end keeps its role unless it is promoted. */
  lemma {:induction false} RoleStays(ss: seq<Sys>, steps: seq<Step>, i: nat, j: nat, x: Id)
    requires Run(ss, steps) && i <= j < |ss| && x in ss[i].nodes && ss[i].nodes[x].end.v.keyed
    requires forall k :: i <= k < j ==> steps[k] != DoPromote(x)
    ensures x in ss[j].nodes && ss[j].nodes[x].end.v.keyed && ss[j].nodes[x].end.v.role == ss[i].nodes[x].end.v.role
  {
    if i < j {
      RoleStays(ss, steps, i, j - 1, x);
      RunStep(ss, steps, j - 1);
      RoleStep(ss[j - 1], steps[j - 1], x);
    }
  }

  /** The host role is held by the creator and by promoted ends only; everybody else who is keyed
      has an ordinary role. */
  lemma {:induction false} HostsWerePromoted(ss: seq<Sys>, steps: seq<Step>, i: nat, x: Id)
    requires Run(ss, steps) && i < |ss| && x in ss[i].nodes && x != FIRST
    requires forall k :: 0 <= k < i ==> steps[k] != DoPromote(x)
    ensures ss[i].nodes[x].end.v.role != ROLE_HOST
    ensures ss[i].nodes[x].end.v.keyed ==> ss[i].nodes[x].end.v.role != ROLE_NONE
  {
    if i > 0 {
      RunStep(ss, steps, i - 1);
      if x in ss[i - 1].nodes {
        HostsWerePromoted(ss, steps, i - 1, x);
        RoleStep(ss[i - 1], steps[i - 1], x);
      } else {
        NewIsNoHost(ss[i - 1], steps[i - 1], x);
      }
    }
  }

  lemma NewIsNoHost(s: Sys, a: Step, x: Id)
    requires Enabled(s, a) && x !in s.nodes && x in Next(s, a).nodes
    ensures !Next(s, a).nodes[x].end.v.keyed && Next(s, a).nodes[x].end.v.role == ROLE_NONE
  {
  }

  // ----- Answers -----

  /** `m` has sent its one first flight to `h`, and it is no longer on its way. */
  ghost predicate AskRead(s: Sys, h: Id, m: Id) {
    && Pair(s, h, m) && h in s.nodes[m].end.hist.asked
    && Asking(h, s.nodes[m].end, Pipe(s.nodes[m], s.nodes[h], m, h)) == []
  }

  predicate IsAskFrom(f: Frame, m: Id) {
    Sender(f) == Some(m) && IsAsk(Carried(f))
  }

  lemma ReadTail(s: Sys, role: Role, outs: seq<(Id, Payload)>, h: Id, m: Id)
    requires Inv(s) && Enabled(s, DoRead(h, role, outs)) && Pair(s, h, m)
    ensures var s', f := Next(s, DoRead(h, role, outs)), NextFrame(s, h);
      AsksIn(Pipe(s.nodes[m], s.nodes[h], m, h)) ==
        (if IsAskFrom(f, m) then [Carried(f)] else []) + AsksIn(Pipe(s.nodes[m], s'.nodes[h], m, h))
  {
    var s', f := Next(s, DoRead(h, role, outs)), NextFrame(s, h);
    ReadPipe(s, h, role, outs, m);
    AsksConcat(PayloadFrom(f, m), Pipe(s.nodes[m], s'.nodes[h], m, h));
    if Sender(f) == Some(m) {
      AsksConcat([], [Carried(f)]);
      assert AsksIn([Carried(f)]) == if IsAsk(Carried(f)) then [Carried(f)] else [];
    }
  }

  lemma SameAsks(s: Sys, s': Sys, h: Id, m: Id)
    requires Same(s, s', h, m) && AskRead(s, h, m) && h in s'.members && m in s'.members
    ensures AskRead(s', h, m)
  {
  }

  /** The relay's steps leave what is between two members alone. */
  lemma RelaySame(s: Sys, a: Step, h: Id, m: Id)
    requires Inv(s) && Enabled(s, a) && Actor(a) == None && Pair(s, h, m)
    requires h in Next(s, a).members && m in Next(s, a).members
    ensures Same(s, Next(s, a), h, m)
  {
    var s' := Next(s, a);
    match a
    case DoJoin(_) => NoticeSame(s, s', h, m, ParticipantJoined(s.nextId));
    case DoLeave(x) => NoticeSame(s, s', h, m, ParticipantLeft(x));
    case DoClaim(_) =>
    case DoRoute(x) =>
      RoutePipe(s, x, h, m);
      RoutePipe(s, x, m, h);
  }

  /** What `m` writes adds no further first flight to `h`. */
  lemma WriteExtra(s: Sys, m: Id, h: Id) returns (extra: seq<Payload>)
    requires Inv(s) && Enabled(s, DoWrite(m)) && Pair(s, h, m)
    ensures Pipe(Next(s, DoWrite(m)).nodes[m], s.nodes[h], m, h) == Pipe(s.nodes[m], s.nodes[h], m, h) + extra
    ensures AsksIn(extra) == []
  {
    assert NodeOk(s, m);
    var (to, p) := s.nodes[m].end.writing[0];
    assert WriteOk(s, m, (to, p));
    OutSnoc(s.nodes[m], s.nodes[h], m, h, ToOne(to, p));
    extra := if to == h then [p] else [];
    NoAsks(extra);
  }

  lemma SendExtra(s: Sys, m: Id, i: nat, to: Option<Id>, h: Id) returns (extra: seq<Payload>)
    requires Enabled(s, DoSend(m, i, to)) && Pair(s, h, m)
    ensures Pipe(Next(s, DoSend(m, i, to)).nodes[m], s.nodes[h], m, h) == Pipe(s.nodes[m], s.nodes[h], m, h) + extra
    ensures AsksIn(extra) == []
  {
    extra := if to == None || to.value == h then [Sealed(s.nodes[m].sealed[i], m)] else [];
    SendPipe(s, m, i, to, h, extra);
    NoAsks(extra);
  }

  lemma FlyExtra(s: Sys, m: Id, h: Id)
    requires Enabled(s, DoFly(m)) && Pair(s, h, m) && s.nodes[m].end.flight.value.0 != h
    ensures Pipe(Next(s, DoFly(m)).nodes[m], s.nodes[h], m, h) == Pipe(s.nodes[m], s.nodes[h], m, h)
  {
    var ps := Pipe(s.nodes[m], s.nodes[h], m, h);
    var (to, nonce) := s.nodes[m].end.flight.value;
    OutSnoc(s.nodes[m], s.nodes[h], m, h, ToOne(to, RekeyPake1(nonce)));
    assert ps + [] == ps;
  }

  lemma OwnExtra(s: Sys, a: Step, h: Id, m: Id) returns (extra: seq<Payload>)
    requires Inv(s) && Enabled(s, a) && AskRead(s, h, m) && Actor(a) == Some(m)
    ensures m in Next(s, a).nodes
    ensures Pipe(Next(s, a).nodes[m], s.nodes[h], m, h) == Pipe(s.nodes[m], s.nodes[h], m, h) + extra
    ensures AsksIn(extra) == []
  {
    var ps := Pipe(s.nodes[m], s.nodes[h], m, h);
    assert ps + [] == ps;
    extra := [];
    if a.DoWrite? {
      extra := WriteExtra(s, m, h);
    } else if a.DoSend? {
      extra := SendExtra(s, m, a.i, a.to, h);
    } else if a.DoFly? {
      assert FlightTo(s.nodes[m].end, h) == [];
      FlyExtra(s, m, h);
    }
  }

  lemma AskedStays(s: Sys, a: Step)
    requires Enabled(s, a) && Actor(a).Some?
    ensures var e, e' := s.nodes[Actor(a).value].end, EndAfter(s, a);
      && (forall h :: h in e.hist.asked ==> h in e'.hist.asked)
      && (e'.flight == e.flight || e'.flight == None || (a.DoAsk? && e'.flight == Some((e.v.hostId, s.nonce))))
  {
    if a.DoRead? { ReaderChanged(s, a); }
  }

  /** A host whose flight has been read gets no other. */
  lemma NoFlight(s: Sys, a: Step, h: Id, m: Id)
    requires Inv(s) && Enabled(s, a) && AskRead(s, h, m) && Actor(a) == Some(m)
    ensures FlightTo(EndAfter(s, a), h) == []
  {
    assert FlightTo(s.nodes[m].end, h) == [];
    AskedStays(s, a);
    if a.DoAsk? { AsksAnother(s, m, h); }
  }

  /** A host that is still a member is asked only once. */
  lemma AsksAnother(s: Sys, m: Id, h: Id)
    requires Inv(s) && Enabled(s, DoAsk(m)) && h in s.members && h in s.nodes[m].end.hist.asked
    ensures s.nodes[m].end.v.hostId != h
  {
    assert NodeOk(s, m);
  }

  lemma AskReadStays(s: Sys, a: Step, h: Id, m: Id)
    requires Inv(s) && Enabled(s, a) && AskRead(s, h, m) && Inv(Next(s, a))
    requires h in Next(s, a).members && m in Next(s, a).members
    ensures AskRead(Next(s, a), h, m)
  {
    var s' := Next(s, a);
    ReadInside(s', h);
    ReadInside(s', m);
    if Actor(a) == None {
      RelaySame(s, a, h, m);
      SameAsks(s, s', h, m);
    } else if Actor(a) == Some(m) {
      ActorChanged(s, a);
      AskedStays(s, a);
      NoFlight(s, a, h, m);
      var extra := OwnExtra(s, a, h, m);
      AsksConcat(Pipe(s.nodes[m], s.nodes[h], m, h), extra);
      Untouched(s, a, h);
    } else {
      Untouched(s, a, m);
      if a.DoRead? && a.x == h {
        ReadTail(s, a.role, a.outs, h, m);
      } else {
        StreamUntouched(s, a, h);
      }
    }
  }

  lemma Untouched(s: Sys, a: Step, y: Id)
    requires Enabled(s, a) && Actor(a).Some? && Actor(a) != Some(y) && y in s.nodes
    ensures y in Next(s, a).nodes && Next(s, a).nodes[y] == s.nodes[y]
  {
  }

  lemma StreamUntouched(s: Sys, a: Step, y: Id)
    requires Enabled(s, a) && Actor(a).Some? && y in s.nodes && !(a.DoRead? && a.x == y)
    ensures y in Next(s, a).nodes && Next(s, a).nodes[y].stream == s.nodes[y].stream
    ensures Next(s, a).nodes[y].read == s.nodes[y].read
  {
  }

  // ----- Who stays answered -----

  /** With the first flight gone, only a migration rotation takes the pairwise key away again. */
  lemma PairwiseStep(s: Sys, a: Step, h: Id, m: Id)
    requires Inv(s) && Enabled(s, a) && AskRead(s, h, m) && h in Next(s, a).nodes
    ensures m in Next(s, a).nodes[h].end.pairwise <==> m in s.nodes[h].end.pairwise && a != DoRotate(h)
  {
    if Actor(a) == Some(h) {
      ActorChanged(s, a);
      if a.DoRead? { PairwiseRead(s, a, h, m); } else { PairwiseOther(s, a, h, m); }
    } else {
      OthersUnchanged(s, a, h);
    }
  }

  lemma PairwiseOther(s: Sys, a: Step, h: Id, m: Id)
    requires Inv(s) && Enabled(s, a) && Actor(a) == Some(h) && !a.DoRead?
    ensures m in EndAfter(s, a).pairwise <==> m in s.nodes[h].end.pairwise && a != DoRotate(h)
  {
    assert NodeOk(s, h);
  }

  lemma PairwiseRead(s: Sys, a: Step, h: Id, m: Id)
    requires Inv(s) && Enabled(s, a) && AskRead(s, h, m) && a.DoRead? && a.x == h
    ensures m in EndAfter(s, a).pairwise <==> m in s.nodes[h].end.pairwise
  {
    ReadTail(s, a.role, a.outs, h, m);
    assert FrameOk(s, h, NextFrame(s, h)) by { assert NodeOk(s, h); }
    ReceivePairwise(s.nodes[h].end, NextFrame(s, h), s.minted, s.nonce, a.role, a.outs, m);
  }

  /** Reading gives or takes nobody a pairwise key but the sender of a first flight and the departed. */
  lemma ReceivePairwise(e: End, f: Frame, minted: nat, y: nat, role: Role, outs: seq<(Id, Payload)>, m: Id)
    requires !IsAskFrom(f, m) && (f.ParticipantLeft? ==> f.who != m)
    ensures m in Receive(e, f, minted, y, role, outs).pairwise <==> m in e.pairwise
  {
  }

  /** Reading the first flight answers it exactly when the reader is host by then. */
  lemma AskStep(s: Sys, a: Step, h: Id, m: Id)
    requires Inv(s) && Enabled(s, a) && Pair(s, h, m) && a.DoRead? && a.x == h && IsAskFrom(NextFrame(s, h), m)
    requires Inv(Next(s, a))
    ensures AskRead(Next(s, a), h, m)
    ensures m in Next(s, a).nodes[h].end.pairwise <==> s.nodes[h].end.v.role == ROLE_HOST
  {
    var s' := Next(s, a);
    ReadTail(s, a.role, a.outs, h, m);
    ReadInside(s', h);
    Untouched(s, a, m);
    PairOpen(s, h, m);
    ActorChanged(s, a);
    assert FrameOk(s, h, NextFrame(s, h)) by { assert NodeOk(s, h); }
  }

  lemma AnsweredStep(s: Sys, a: Step, h: Id, m: Id)
    requires Inv(s) && Enabled(s, a) && AskRead(s, h, m) && Inv(Next(s, a))
    requires h in Next(s, a).members && m in Next(s, a).members
    ensures AskRead(Next(s, a), h, m)
    ensures m in Next(s, a).nodes[h].end.pairwise <==> m in s.nodes[h].end.pairwise && a != DoRotate(h)
  {
    AskReadStays(s, a, h, m);
    PairwiseStep(s, a, h, m);
  }

  ghost predicate NoRotation(steps: seq<Step>, k: nat, j: nat, h: Id)
    requires j <= |steps|
  {
    forall i :: k < i < j ==> steps[i] != DoRotate(h)
  }

  lemma NoRotationStep(steps: seq<Step>, k: nat, j: nat, h: Id)
    requires k < j < |steps|
    ensures NoRotation(steps, k, j + 1, h) <==> NoRotation(steps, k, j, h) && steps[j] != DoRotate(h)
  {
  }

  /** A member's first flight was read at step `k`. From then on, while both are members, the host
      holds a pairwise key for it exactly when it was host at that moment and has not rotated for
      a migration since. By agreement these are the ends that follow the host's keys. */
  lemma AnsweredExactly(ss: seq<Sys>, steps: seq<Step>, k: nat, j: nat, h: Id, m: Id)
    requires Run(ss, steps) && k < j < |ss| && Pair(ss[j], h, m) && Pair(ss[k], h, m)
    requires steps[k].DoRead? && steps[k].x == h && CanRead(ss[k], h) && IsAskFrom(NextFrame(ss[k], h), m)
    ensures AskRead(ss[j], h, m)
    ensures m in ss[j].nodes[h].end.pairwise <==>
              ss[k].nodes[h].end.v.role == ROLE_HOST && NoRotation(steps, k, j, h)
  {
    AskStepAt(ss, steps, k, h, m);
    AnsweredSince(ss, steps, k, j, h, m, ss[k].nodes[h].end.v.role == ROLE_HOST);
  }

  lemma {:induction false} AnsweredSince(ss: seq<Sys>, steps: seq<Step>, k: nat, j: nat, h: Id, m: Id, answered: bool)
    requires Run(ss, steps) && k < j < |ss| && Pair(ss[j], h, m) && h in ss[k].nodes && m in ss[k].nodes
    requires AskRead(ss[k + 1], h, m) && (m in ss[k + 1].nodes[h].end.pairwise <==> answered)
    ensures AskRead(ss[j], h, m)
    ensures m in ss[j].nodes[h].end.pairwise <==> answered && NoRotation(steps, k, j, h)
    decreases j
  {
    if j > k + 1 {
      StillMembers(ss, steps, k, j - 1, h, m);
      AnsweredSince(ss, steps, k, j - 1, h, m, answered);
      AnsweredStepAt(ss, steps, j - 1, h, m);
      NoRotationStep(steps, k, j - 1, h);
    }
  }

  lemma AskStepAt(ss: seq<Sys>, steps: seq<Step>, k: nat, h: Id, m: Id)
    requires Run(ss, steps) && k < |steps| && Pair(ss[k], h, m)
    requires steps[k].DoRead? && steps[k].x == h && CanRead(ss[k], h) && IsAskFrom(NextFrame(ss[k], h), m)
    ensures AskRead(ss[k + 1], h, m)
    ensures m in ss[k + 1].nodes[h].end.pairwise <==> ss[k].nodes[h].end.v.role == ROLE_HOST
  {
    RunStep(ss, steps, k);
    AskStep(ss[k], steps[k], h, m);
  }

  lemma AnsweredStepAt(ss: seq<Sys>, steps: seq<Step>, j: nat, h: Id, m: Id)
    requires Run(ss, steps) && j < |steps| && AskRead(ss[j], h, m) && h in ss[j + 1].members && m in ss[j + 1].members
    ensures AskRead(ss[j + 1], h, m)
    ensures m in ss[j + 1].nodes[h].end.pairwise <==> m in ss[j].nodes[h].end.pairwise && steps[j] != DoRotate(h)
  {
    RunStep(ss, steps, j);
    AnsweredStep(ss[j], steps[j], h, m);
  }

  /** Migration converges: a first flight that reaches the successor after its promotion and rotation
      leaves the survivor, once it has taken in what is on its way, with the successor's pairwise
      key if and only if the flight did not cross the reply to an earlier one, and then with its
      current group key, however many members leave meanwhile. */
  lemma MigrationConverges(ss: seq<Sys>, steps: seq<Step>, k: nat, j: nat, h: Id, m: Id)
    requires Run(ss, steps) && k < j < |ss| && Pair(ss[j], h, m) && Pair(ss[k], h, m)
    requires steps[k].DoRead? && steps[k].x == h && CanRead(ss[k], h) && IsAskFrom(NextFrame(ss[k], h), m)
    requires ss[k].nodes[h].end.v.role == ROLE_HOST && NoRotation(steps, k, j, h)
    ensures m in ss[j].nodes[h].end.pairwise
    ensures var eh, em := ss[j].nodes[h].end, ss[j].nodes[m].end;
      var w := AbsorbAll(Due(em), OnTheWay(ss[j], h, m));
      && (w.hostPair == Some(eh.pairwise[m]) <==> !Crossed(ss, steps, j, m, h))
      && (!Crossed(ss, steps, j, m, h) ==> w.groupKey == Target(eh))
  {
    AnsweredExactly(ss, steps, k, j, h, m);
    HostAndMemberAgree(ss, steps, j, h, m);
  }

  /** Ids are not reissued: who is a member later was one all along. */
  lemma {:induction false} StillMembers(ss: seq<Sys>, steps: seq<Step>, k: nat, j: nat, h: Id, m: Id)
    requires Run(ss, steps) && k <= j < |ss| - 1 && h in ss[k].nodes && m in ss[k].nodes
    requires h in ss[j + 1].members && m in ss[j + 1].members
    requires h != m
    ensures Pair(ss[j], h, m)
  {
    NodesStay(ss, steps, k, j, h);
    NodesStay(ss, steps, k, j, m);
    RunStep(ss, steps, j);
    StepLater(ss[j], steps[j]);
    ReadInside(ss[j], h);
    ReadInside(ss[j], m);
  }

  lemma {:induction false} NodesStay(ss: seq<Sys>, steps: seq<Step>, k: nat, j: nat, x: Id)
    requires Run(ss, steps) && k <= j < |ss| && x in ss[k].nodes
    ensures x in ss[j].nodes
  {
    if k < j {
      NodesStay(ss, steps, k, j - 1, x);
      RunStep(ss, steps, j - 1);
      StepLater(ss[j - 1], steps[j - 1]);
    }
  }
}
