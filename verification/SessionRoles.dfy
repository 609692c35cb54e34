/** Where roles come from: a joiner is seated with what its host's role policy said when the host read
    its first flight, and the host remembers that until it reads that the joiner has left. */
module SessionRoles {
  import opened Wire
  import opened Ends
  import opened Session
  import opened SessionPipes
  import opened KeyAgreement
  import opened SessionInv
  import opened SessionReads
  import opened SessionRelay
  import opened SessionRuns
  import opened SessionResults
  import opened SessionHistory

  /** What a policy's answer makes of a joiner: the two reserved values count as "member", and every
      other is delivered as it is. */
  predicate Seats(policy: Role, seat: Role) {
    if policy in {ROLE_NONE, ROLE_HOST} then seat == ROLE_MEMBER else seat == policy
  }

  /** At step `r` the host `h` reads the first flight of the joiner `x`, and its policy says `steps[r].role`. */
  ghost predicate AdmitsAt(ss: seq<Sys>, steps: seq<Step>, r: nat, h: Id, x: Id) {
    && r < |steps| && r < |ss| && steps[r].DoRead? && steps[r].x == h && CanRead(ss[r], h)
    && ss[r].nodes[h].end.v.role == ROLE_HOST
    && Sender(NextFrame(ss[r], h)) == Some(x) && Carried(NextFrame(ss[r], h)).Pake1?
  }

  /** The joiner `x` came with a join that asked to observe, or not. */
  ghost predicate JoinsAt(ss: seq<Sys>, steps: seq<Step>, q: nat, x: Id, observer: bool) {
    q < |steps| && q < |ss| && steps[q] == DoJoin(observer) && ss[q].nextId == x
  }

  ghost predicate Admitted(ss: seq<Sys>, steps: seq<Step>, i: nat, h: Id, x: Id, seat: Role) {
    exists r: nat :: r < i && AdmitsAt(ss, steps, r, h, x) && Seats(steps[r].role, seat)
  }

  ghost predicate Came(ss: seq<Sys>, steps: seq<Step>, i: nat, x: Id, observer: bool) {
    exists q: nat :: q < i && JoinsAt(ss, steps, q, x, observer)
  }

  // ----- Grants and first flights in transit -----

  /** A grant from `from` was made for `to`, and a first flight is its sender's. */
  ghost predicate Due(ss: seq<Sys>, steps: seq<Step>, i: nat, from: Id, to: Id, p: Payload) {
    match p
    case KeyGrant(w) => w.to == to && Admitted(ss, steps, i, from, to, w.role)
    case Pake1(_, observer) => Came(ss, steps, i, from, observer)
    case _ => true
  }

  ghost predicate StreamDue(ss: seq<Sys>, steps: seq<Step>, i: nat, x: Id, fs: seq<Frame>) {
    forall l :: 0 <= l < |fs| && Sender(fs[l]).Some? ==> Due(ss, steps, i, Sender(fs[l]).value, x, Carried(fs[l]))
  }

  ghost predicate OutboxDue(ss: seq<Sys>, steps: seq<Step>, i: nat, x: Id, os: seq<Out>) {
    forall l :: 0 <= l < |os| && os[l].ToOne? ==> Due(ss, steps, i, x, os[l].to, os[l].payload)
  }

  ghost predicate WritingDue(ss: seq<Sys>, steps: seq<Step>, i: nat, x: Id, ws: seq<(Id, Payload)>) {
    forall l :: 0 <= l < |ws| ==> Due(ss, steps, i, x, ws[l].0, ws[l].1)
  }

  ghost predicate NodeDue(ss: seq<Sys>, steps: seq<Step>, i: nat, x: Id, n: Node) {
    && StreamDue(ss, steps, i, x, n.stream) && OutboxDue(ss, steps, i, x, n.outbox)
    && WritingDue(ss, steps, i, x, n.end.writing)
  }

  ghost predicate AllDue(ss: seq<Sys>, steps: seq<Step>, i: nat)
    requires i < |ss|
  {
    forall x {:trigger NodeDue(ss, steps, i, x, ss[i].nodes[x])} :: x in ss[i].nodes ==> NodeDue(ss, steps, i, x, ss[i].nodes[x])
  }

  lemma DueLater(ss: seq<Sys>, steps: seq<Step>, i: nat, from: Id, to: Id, p: Payload)
    requires Due(ss, steps, i, from, to, p)
    ensures Due(ss, steps, i + 1, from, to, p)
  {
    match p
    case KeyGrant(w) =>
      var r: nat :| r < i && AdmitsAt(ss, steps, r, from, to) && Seats(steps[r].role, w.role);
      assert r < i + 1;
    case Pake1(_, observer) =>
      var q: nat :| q < i && JoinsAt(ss, steps, q, from, observer);
      assert q < i + 1;
    case _ =>
  }

  lemma NodeDueLater(ss: seq<Sys>, steps: seq<Step>, i: nat, x: Id, n: Node)
    requires NodeDue(ss, steps, i, x, n)
    ensures NodeDue(ss, steps, i + 1, x, n)
  {
    var fs, os, ws := n.stream, n.outbox, n.end.writing;
    forall l | 0 <= l < |fs| && Sender(fs[l]).Some? ensures Due(ss, steps, i + 1, Sender(fs[l]).value, x, Carried(fs[l])) {
      DueLater(ss, steps, i, Sender(fs[l]).value, x, Carried(fs[l]));
    }
    forall l | 0 <= l < |os| && os[l].ToOne? ensures Due(ss, steps, i + 1, x, os[l].to, os[l].payload) {
      DueLater(ss, steps, i, x, os[l].to, os[l].payload);
    }
    forall l | 0 <= l < |ws| ensures Due(ss, steps, i + 1, x, ws[l].0, ws[l].1) {
      DueLater(ss, steps, i, x, ws[l].0, ws[l].1);
    }
  }

  /** What a step adds to an outbox. */
  lemma OutboxGains(s: Sys, a: Step, x: Id)
    requires Enabled(s, a) && x in s.nodes && x in Next(s, a).nodes && (a.DoJoin? ==> x != s.nextId)
    ensures
      var os, os' := s.nodes[x].outbox, Next(s, a).nodes[x].outbox;
      || os' == os || (os != [] && os' == os[1..])
      || (a == DoWrite(x) && var w := s.nodes[x].end.writing[0]; os' == os + [ToOne(w.0, w.1)])
      || (exists o: Out :: os' == os + [o] && (o.ToOne? ==> !o.payload.KeyGrant? && !o.payload.Pake1?))
  {
    var os, os' := s.nodes[x].outbox, Next(s, a).nodes[x].outbox;
    if |os'| == |os| + 1 { assert os' == os + [os'[|os|]]; }
  }

  lemma OutboxDueStep(ss: seq<Sys>, steps: seq<Step>, i: nat, x: Id)
    requires Run(ss, steps) && i < |steps| && AllDue(ss, steps, i) && x in ss[i].nodes && x in ss[i + 1].nodes
    ensures OutboxDue(ss, steps, i + 1, x, ss[i + 1].nodes[x].outbox)
  {
    RunStep(ss, steps, i);
    assert NodeDue(ss, steps, i, x, ss[i].nodes[x]);
    NodeDueLater(ss, steps, i, x, ss[i].nodes[x]);
    OutboxGains(ss[i], steps[i], x);
  }

  /** What a step adds to a stream. */
  lemma StreamGains(s: Sys, a: Step, x: Id)
    requires Enabled(s, a) && x in s.nodes && x in Next(s, a).nodes && (a.DoJoin? ==> x != s.nextId)
    ensures
      var fs, fs' := s.nodes[x].stream, Next(s, a).nodes[x].stream;
      || fs' == fs
      || (exists f: Frame :: fs' == fs + [f] && (Sender(f).Some? ==> Carried(f).Sealed?))
      || (a.DoRoute? && var o := s.nodes[a.x].outbox[0]; o.ToOne? && o.to == x && fs' == fs + [Direct(a.x, x, o.payload)])
  {
    var fs, fs' := s.nodes[x].stream, Next(s, a).nodes[x].stream;
    if |fs'| == |fs| + 1 { assert fs' == fs + [fs'[|fs|]]; }
  }

  lemma StreamDueStep(ss: seq<Sys>, steps: seq<Step>, i: nat, x: Id)
    requires Run(ss, steps) && i < |steps| && AllDue(ss, steps, i) && x in ss[i].nodes && x in ss[i + 1].nodes
    ensures StreamDue(ss, steps, i + 1, x, ss[i + 1].nodes[x].stream)
  {
    RunStep(ss, steps, i);
    assert NodeDue(ss, steps, i, x, ss[i].nodes[x]);
    NodeDueLater(ss, steps, i, x, ss[i].nodes[x]);
    StreamGains(ss[i], steps[i], x);
    if steps[i].DoRoute? {
      var y := steps[i].x;
      assert NodeDue(ss, steps, i, y, ss[i].nodes[y]);
      NodeDueLater(ss, steps, i, y, ss[i].nodes[y]);
    }
  }

  /** What the read goroutine writes: the grant carries what the policy said. */
  lemma WritesDue(ss: seq<Sys>, steps: seq<Step>, i: nat, x: Id)
    requires Run(ss, steps) && i < |steps| && steps[i].DoRead? && steps[i].x == x && CanRead(ss[i], x) && x in ss[i + 1].nodes
    ensures WritingDue(ss, steps, i + 1, x, ss[i + 1].nodes[x].end.writing)
  {
    RunStep(ss, steps, i);
    ActorChanged(ss[i], steps[i]);
    var e, f := ss[i].nodes[x].end, NextFrame(ss[i], x);
    if e.v.keyed && Sender(f).Some? {
      if AdmitsAt(ss, steps, i, x, Sender(f).value) {
        assert Admitted(ss, steps, i + 1, x, Sender(f).value, Clamp(steps[i].role));
      }
    } else if e.v.keyed && Rotates(e, f) {
      var outs := steps[i].outs;
      forall l | 0 <= l < |outs| ensures outs[l].1.Rekey? {
        assert outs[l] == RekeyFor(e.pairwise - {f.who}, ss[i].minted, outs[l].0);
      }
    }
  }

  lemma WritingDueStep(ss: seq<Sys>, steps: seq<Step>, i: nat, x: Id)
    requires Run(ss, steps) && i < |steps| && AllDue(ss, steps, i) && x in ss[i].nodes && x in ss[i + 1].nodes
    ensures WritingDue(ss, steps, i + 1, x, ss[i + 1].nodes[x].end.writing)
  {
    RunStep(ss, steps, i);
    if steps[i].DoRead? && steps[i].x == x {
      WritesDue(ss, steps, i, x);
    } else {
      assert NodeDue(ss, steps, i, x, ss[i].nodes[x]);
      NodeDueLater(ss, steps, i, x, ss[i].nodes[x]);
      if Actor(steps[i]) == Some(x) { ActorChanged(ss[i], steps[i]); } else { OthersUnchanged(ss[i], steps[i], x); }
    }
  }

  lemma NewDue(ss: seq<Sys>, steps: seq<Step>, i: nat, x: Id)
    requires Run(ss, steps) && i < |steps| && x !in ss[i].nodes && x in ss[i + 1].nodes
    ensures NodeDue(ss, steps, i + 1, x, ss[i + 1].nodes[x])
  {
    RunStep(ss, steps, i);
    assert JoinsAt(ss, steps, i, x, steps[i].observer);
  }

  lemma {:induction false} RunDue(ss: seq<Sys>, steps: seq<Step>, i: nat)
    requires Run(ss, steps) && i < |ss|
    ensures AllDue(ss, steps, i)
  {
    if i > 0 {
      RunDue(ss, steps, i - 1);
      forall x | x in ss[i].nodes ensures NodeDue(ss, steps, i, x, ss[i].nodes[x]) {
        if x in ss[i - 1].nodes {
          StreamDueStep(ss, steps, i - 1, x);
          OutboxDueStep(ss, steps, i - 1, x);
          WritingDueStep(ss, steps, i - 1, x);
        } else {
          NewDue(ss, steps, i - 1, x);
        }
      }
    }
  }

  // ----- Each joiner asks once -----

  /** The joiners' first flights among `ps`. */
  function Firsts(ps: seq<Payload>): nat {
    if ps == [] then 0 else Firsts(ps[..|ps| - 1]) + if ps[|ps| - 1].Pake1? then 1 else 0
  }

  lemma {:induction false} FirstsConcat(ps: seq<Payload>, qs: seq<Payload>)
    ensures Firsts(ps + qs) == Firsts(ps) + Firsts(qs)
    decreases |qs|
  {
    if qs == [] {
      assert ps + qs == ps;
    } else {
      var n := |qs| - 1;
      FirstsConcat(ps, qs[..n]);
      assert (ps + qs)[..|ps| + n] == ps + qs[..n];
    }
  }

  lemma FirstsOne(p: Payload)
    ensures Firsts([p]) == if p.Pake1? then 1 else 0
  {
    assert [p][..0] == [];
  }

  /** How many of them are under way from `x` to `h`: `os` is what `x` has written and `fs` what `h` has
      not read. */
  function Flights(os: seq<Out>, fs: seq<Frame>, x: Id, h: Id): nat {
    Firsts(From(fs, x)) + Firsts(To(os, x, h))
  }

  ghost predicate Inside(s: Sys, x: Id, h: Id) {
    x in s.nodes && h in s.nodes && x != h && s.nodes[h].read <= |s.nodes[h].stream|
  }

  function FlightsIn(s: Sys, x: Id, h: Id): nat
    requires Inside(s, x, h)
  {
    Flights(s.nodes[x].outbox, Unread(s.nodes[h]), x, h)
  }

  lemma FromMore(fs: seq<Frame>, f: Frame, x: Id)
    ensures Firsts(From(fs + [f], x)) == Firsts(From(fs, x)) + Firsts(PayloadFrom(f, x))
  {
    FromSnoc(fs, f, x);
    FirstsConcat(From(fs, x), PayloadFrom(f, x));
  }

  lemma ToMore(os: seq<Out>, o: Out, x: Id, h: Id)
    ensures Firsts(To(os + [o], x, h)) == Firsts(To(os, x, h)) + Firsts(PayloadTo(o, x, h))
  {
    ToSnoc(os, o, x, h);
    FirstsConcat(To(os, x, h), PayloadTo(o, x, h));
  }

  lemma ToLess(os: seq<Out>, x: Id, h: Id)
    requires os != []
    ensures Firsts(To(os, x, h)) == Firsts(PayloadTo(os[0], x, h)) + Firsts(To(os[1..], x, h))
  {
    ToCons(os, x, h);
    FirstsConcat(PayloadTo(os[0], x, h), To(os[1..], x, h));
  }

  lemma FromLess(fs: seq<Frame>, x: Id)
    requires fs != []
    ensures Firsts(From(fs, x)) == Firsts(PayloadFrom(fs[0], x)) + Firsts(From(fs[1..], x))
  {
    FromCons(fs, x);
    FirstsConcat(PayloadFrom(fs[0], x), From(fs[1..], x));
  }

  /** The relay moves the first message of `x` on, or drops it. */
  lemma Moved(os: seq<Out>, fs: seq<Frame>, fs': seq<Frame>, x: Id, h: Id)
    requires os != [] && (fs' == fs || (exists f: Frame :: fs' == fs + [f] && PayloadFrom(f, x) == PayloadTo(os[0], x, h)))
    ensures Flights(os[1..], fs', x, h) <= Flights(os, fs, x, h)
  {
    ToLess(os, x, h);
    if fs' != fs {
      var f :| fs' == fs + [f] && PayloadFrom(f, x) == PayloadTo(os[0], x, h);
      FromMore(fs, f, x);
    }
  }

  lemma RouteReads(s: Sys, x: Id, h: Id)
    requires Inv(s) && Enabled(s, DoRoute(x)) && Inside(s, x, h)
    ensures
      var s' := Next(s, DoRoute(x));
      && Inside(s', x, h) && s'.nodes[x].outbox == s.nodes[x].outbox[1..]
      && (Unread(s'.nodes[h]) == Unread(s.nodes[h]) ||
          exists f: Frame :: Unread(s'.nodes[h]) == Unread(s.nodes[h]) + [f] && PayloadFrom(f, x) == PayloadTo(s.nodes[x].outbox[0], x, h))
  {
    var s', n := Next(s, DoRoute(x)), s.nodes[h];
    match s.nodes[x].outbox[0]
    case ToOne(to, p) => if to == h && h in s.members { UnreadMore(n, Direct(x, h, p)); }
    case ToAll(k) => if h in s.members { UnreadMore(n, Broadcast(x, Sealed(k, x))); }
  }

  lemma UnreadMore(n: Node, f: Frame)
    requires n.read <= |n.stream|
    ensures Unread(Push(n, f)) == Unread(n) + [f]
  {
  }

  lemma RouteFlights(s: Sys, x: Id, h: Id)
    requires Inv(s) && Enabled(s, DoRoute(x)) && Inside(s, x, h)
    ensures var s' := Next(s, DoRoute(x)); Inside(s', x, h) && FlightsIn(s', x, h) <= FlightsIn(s, x, h)
  {
    RouteReads(s, x, h);
    Moved(s.nodes[x].outbox, Unread(s.nodes[h]), Unread(Next(s, DoRoute(x)).nodes[h]), x, h);
  }

  /** What the relay puts into the stream of `h` on anybody else's account. */
  lemma NoticeReads(s: Sys, a: Step, x: Id, h: Id)
    requires Inv(s) && Enabled(s, a) && Inside(s, x, h) && (a.DoJoin? || a.DoLeave? || (a.DoRoute? && a.x != x))
    ensures
      var s' := Next(s, a);
      && Inside(s', x, h) && s'.nodes[x].outbox == s.nodes[x].outbox
      && (Unread(s'.nodes[h]) == Unread(s.nodes[h]) ||
          exists f: Frame :: Unread(s'.nodes[h]) == Unread(s.nodes[h]) + [f] && PayloadFrom(f, x) == [])
  {
    var s', n := Next(s, a), s.nodes[h];
    if s'.nodes[h].stream != n.stream {
      var f := s'.nodes[h].stream[|n.stream|];
      assert s'.nodes[h].stream == n.stream + [f];
      UnreadMore(n, f);
    }
  }

  lemma NoticeFlights(s: Sys, a: Step, x: Id, h: Id)
    requires Inv(s) && Enabled(s, a) && Inside(s, x, h) && (a.DoJoin? || a.DoLeave? || (a.DoRoute? && a.x != x))
    ensures Inside(Next(s, a), x, h) && FlightsIn(Next(s, a), x, h) == FlightsIn(s, x, h)
  {
    NoticeReads(s, a, x, h);
    var fs, fs' := Unread(s.nodes[h]), Unread(Next(s, a).nodes[h]);
    if fs' != fs {
      var f :| fs' == fs + [f] && PayloadFrom(f, x) == [];
      FromMore(fs, f, x);
    }
  }

  lemma OwnFlights(s: Sys, a: Step, x: Id, h: Id)
    requires Inv(s) && Enabled(s, a) && Actor(a) == Some(x) && Inside(s, x, h)
    ensures Inside(Next(s, a), x, h) && FlightsIn(Next(s, a), x, h) == FlightsIn(s, x, h)
  {
    var s' := Next(s, a);
    assert s'.nodes[h] == s.nodes[h];
    if s'.nodes[x].outbox != s.nodes[x].outbox {
      var o := s'.nodes[x].outbox[|s.nodes[x].outbox|];
      assert s'.nodes[x].outbox == s.nodes[x].outbox + [o];
      NoFirst(s, a, x, o);
      ToMore(s.nodes[x].outbox, o, x, h);
      if PayloadTo(o, x, h) != [] { FirstsOne(PayloadTo(o, x, h)[0]); }
    }
  }

  lemma NoFirst(s: Sys, a: Step, x: Id, o: Out)
    requires Inv(s) && Enabled(s, a) && Actor(a) == Some(x) && Next(s, a).nodes[x].outbox == s.nodes[x].outbox + [o]
    ensures o.ToOne? ==> !o.payload.Pake1?
  {
    assert NodeOk(s, x);
    if a.DoWrite? { assert WriteOk(s, x, s.nodes[x].end.writing[0]); }
    assert (s.nodes[x].outbox + [o])[|s.nodes[x].outbox|] == o;
  }

  /** Reading takes one out. */
  lemma ReadFlights(s: Sys, a: Step, x: Id, h: Id)
    requires Inv(s) && Enabled(s, a) && a.DoRead? && a.x == h && Inside(s, x, h)
    ensures Inside(Next(s, a), x, h)
    ensures FlightsIn(Next(s, a), x, h) + Firsts(PayloadFrom(NextFrame(s, h), x)) == FlightsIn(s, x, h)
  {
    FromLess(Unread(s.nodes[h]), x);
    assert Unread(Next(s, a).nodes[h]) == Unread(s.nodes[h])[1..];
  }

  lemma OtherFlights(s: Sys, a: Step, x: Id, h: Id)
    requires Enabled(s, a) && Inside(s, x, h) && (a.DoClaim? || (Actor(a).Some? && Actor(a) != Some(x) && !(a.DoRead? && a.x == h)))
    ensures Inside(Next(s, a), x, h) && FlightsIn(Next(s, a), x, h) == FlightsIn(s, x, h)
  {
    var s' := Next(s, a);
    assert s'.nodes[x].outbox == s.nodes[x].outbox && s'.nodes[h].stream == s.nodes[h].stream && s'.nodes[h].read == s.nodes[h].read;
  }

  /** Nobody adds to them. */
  lemma FlightsStep(s: Sys, a: Step, x: Id, h: Id)
    requires Inv(s) && Enabled(s, a) && Inside(s, x, h)
    ensures Inside(Next(s, a), x, h) && FlightsIn(Next(s, a), x, h) <= FlightsIn(s, x, h)
  {
    if a == DoRoute(x) {
      RouteFlights(s, x, h);
    } else if a.DoJoin? || a.DoLeave? || a.DoRoute? {
      NoticeFlights(s, a, x, h);
    } else if Actor(a) == Some(x) {
      OwnFlights(s, a, x, h);
    } else if a.DoRead? && a.x == h {
      ReadFlights(s, a, x, h);
    } else {
      OtherFlights(s, a, x, h);
    }
  }

  lemma {:induction false} NothingTo(os: seq<Out>, x: Id, h: Id)
    requires forall i :: 0 <= i < |os| && os[i].ToOne? ==> os[i].to != h
    ensures Firsts(To(os, x, h)) == 0
  {
    if os != [] {
      var n := |os| - 1;
      NothingTo(os[..n], x, h);
      assert os == os[..n] + [os[n]];
      ToMore(os[..n], os[n], x, h);
      if PayloadTo(os[n], x, h) != [] { FirstsOne(PayloadTo(os[n], x, h)[0]); }
    }
  }

  /** When the later of the two joins, there is at most its own. */
  lemma NewFlights(s: Sys, observer: bool, x: Id, h: Id)
    requires Inv(s) && !Inside(s, x, h) && Inside(Next(s, DoJoin(observer)), x, h)
    ensures FlightsIn(Next(s, DoJoin(observer)), x, h) <= 1
  {
    var s', y := Next(s, DoJoin(observer)), s.nextId;
    assert y !in s.nodes;
    if h in s.nodes { assert NodeOk(s, h); }
    if x == y {
      var fs := Unread(s'.nodes[h]);
      forall i | 0 <= i < |fs| ensures PayloadFrom(fs[i], x) == [] { NotYetFrom(s, observer, h, i); }
      FromNobody(fs, x);
      NewAsks(s'.nodes[x].outbox, x, h);
    } else {
      assert h == y && NodeOk(s, x) && Unread(s'.nodes[h]) == [];
      forall i | 0 <= i < |s.nodes[x].outbox| && s.nodes[x].outbox[i].ToOne? ensures s.nodes[x].outbox[i].to != h {
        assert OutOk(s, x, s.nodes[x].outbox[i]);
      }
      NothingTo(s.nodes[x].outbox, x, h);
    }
  }

  lemma NewAsks(os: seq<Out>, x: Id, h: Id)
    requires |os| == 1 && os[0].ToOne?
    ensures Firsts(To(os, x, h)) <= 1
  {
    assert os == [] + [os[0]];
    ToMore([], os[0], x, h);
    FirstsOne(os[0].payload);
  }

  lemma NotYetFrom(s: Sys, observer: bool, h: Id, i: nat)
    requires Inv(s) && h in s.nodes && h != s.nextId
    requires var n := Next(s, DoJoin(observer)).nodes[h]; n.read <= |n.stream| && i < |Unread(n)|
    ensures PayloadFrom(Unread(Next(s, DoJoin(observer)).nodes[h])[i], s.nextId) == []
  {
    var n, n' := s.nodes[h], Next(s, DoJoin(observer)).nodes[h];
    assert NodeOk(s, h);
    var k := n'.read + i;
    if k < |n.stream| { assert FrameOk(s, h, n.stream[k]); } else { assert n'.stream[k] == ParticipantJoined(s.nextId); }
  }

  lemma OneFlightMore(s: Sys, a: Step, x: Id, h: Id)
    requires Inv(s) && Enabled(s, a) && Inside(Next(s, a), x, h) && (Inside(s, x, h) ==> FlightsIn(s, x, h) <= 1)
    ensures FlightsIn(Next(s, a), x, h) <= 1
  {
    if Inside(s, x, h) {
      FlightsStep(s, a, x, h);
    } else {
      OnlyJoins(s, a, x, h);
      NewFlights(s, a.observer, x, h);
    }
  }

  /** In every run there is at most one under way between any two ends. */
  lemma {:induction false} AtMostOneFlight(ss: seq<Sys>, steps: seq<Step>, i: nat, x: Id, h: Id)
    requires Run(ss, steps) && i < |ss| && Inside(ss[i], x, h)
    ensures FlightsIn(ss[i], x, h) <= 1
  {
    if i > 0 {
      if Inside(ss[i - 1], x, h) { AtMostOneFlight(ss, steps, i - 1, x, h); }
      RunStep(ss, steps, i - 1);
      OneFlightMore(ss[i - 1], steps[i - 1], x, h);
    }
  }

  lemma OnlyJoins(s: Sys, a: Step, x: Id, h: Id)
    requires Inv(s) && Enabled(s, a) && !Inside(s, x, h) && Inside(Next(s, a), x, h)
    ensures a.DoJoin?
  {
    if h in s.nodes { assert NodeOk(s, h); }
  }

  lemma CameFor(ss: seq<Sys>, steps: seq<Step>, r: nat, h: Id, x: Id) returns (q: nat)
    requires Run(ss, steps) && AdmitsAt(ss, steps, r, h, x)
    ensures q < r && JoinsAt(ss, steps, q, x, Carried(NextFrame(ss[r], h)).observer)
  {
    RunDue(ss, steps, r);
    assert NodeDue(ss, steps, r, h, ss[r].nodes[h]);
    var f := NextFrame(ss[r], h);
    assert Due(ss, steps, r, x, h, Carried(f));
    q :| q < r && JoinsAt(ss, steps, q, x, Carried(f).observer);
  }

  lemma AdmittedInside(ss: seq<Sys>, steps: seq<Step>, r: nat, h: Id, x: Id)
    requires Run(ss, steps) && AdmitsAt(ss, steps, r, h, x)
    ensures Inside(ss[r], x, h)
  {
    var q := CameFor(ss, steps, r, h, x);
    RunStep(ss, steps, q);
    NodesStay(ss, steps, q + 1, r, x);
    RunKeeps(ss, steps, r);
    assert NodeOk(ss[r], h);
    assert FrameOk(ss[r], h, NextFrame(ss[r], h));
  }

  lemma ReadsLast(ss: seq<Sys>, steps: seq<Step>, r: nat, h: Id, x: Id)
    requires Run(ss, steps) && AdmitsAt(ss, steps, r, h, x)
    ensures Inside(ss[r + 1], x, h) && FlightsIn(ss[r + 1], x, h) == 0
  {
    AdmittedInside(ss, steps, r, h, x);
    RunStep(ss, steps, r);
    AtMostOneFlight(ss, steps, r, x, h);
    ReadFlights(ss[r], steps[r], x, h);
    FirstsOne(Carried(NextFrame(ss[r], h)));
  }

  /** Once `h` has read one, there is none any more. */
  lemma {:induction false} NoneAfter(ss: seq<Sys>, steps: seq<Step>, r: nat, l: nat, h: Id, x: Id)
    requires Run(ss, steps) && r < l < |ss| && AdmitsAt(ss, steps, r, h, x)
    ensures Inside(ss[l], x, h) && FlightsIn(ss[l], x, h) == 0
    decreases l
  {
    if r < l - 1 {
      NoneAfter(ss, steps, r, l - 1, h, x);
      RunStep(ss, steps, l - 1);
      FlightsStep(ss[l - 1], steps[l - 1], x, h);
    } else {
      ReadsLast(ss, steps, r, h, x);
    }
  }

  /** So `h` never admits `x` again. */
  lemma AdmitsOnce(ss: seq<Sys>, steps: seq<Step>, r: nat, l: nat, h: Id, x: Id)
    requires Run(ss, steps) && r < l && AdmitsAt(ss, steps, r, h, x)
    ensures !AdmitsAt(ss, steps, l, h, x)
  {
    if l < |steps| && steps[l].DoRead? && steps[l].x == h && CanRead(ss[l], h) {
      NoneAfter(ss, steps, r, l, h, x);
      RunStep(ss, steps, l);
      ReadFlights(ss[l], steps[l], x, h);
      if Sender(NextFrame(ss[l], h)) == Some(x) { FirstsOne(Carried(NextFrame(ss[l], h))); }
    }
  }

  // ----- Results -----

  /** What the host remembers of `x`. */
  ghost predicate Remembers(s: Sys, h: Id, x: Id, policy: Role) {
    h in s.nodes && x in s.nodes[h].end.joiners && Seats(policy, s.nodes[h].end.joiners[x])
  }

  ghost predicate ReadsLeave(ss: seq<Sys>, steps: seq<Step>, l: nat, h: Id, x: Id) {
    l < |steps| && l < |ss| && steps[l].DoRead? && steps[l].x == h && CanRead(ss[l], h) && NextFrame(ss[l], h) == ParticipantLeft(x)
  }

  lemma RemembersStep(ss: seq<Sys>, steps: seq<Step>, l: nat, h: Id, x: Id, policy: Role)
    requires Run(ss, steps) && l < |steps| && Remembers(ss[l], h, x, policy)
    requires !ReadsLeave(ss, steps, l, h, x) && !AdmitsAt(ss, steps, l, h, x)
    ensures Remembers(ss[l + 1], h, x, policy)
  {
    RunStep(ss, steps, l);
    StepLater(ss[l], steps[l]);
    if Actor(steps[l]) == Some(h) { ActorChanged(ss[l], steps[l]); } else { OthersUnchanged(ss[l], steps[l], h); }
  }

  lemma AdmitRemembers(ss: seq<Sys>, steps: seq<Step>, r: nat, h: Id, x: Id)
    requires Run(ss, steps) && AdmitsAt(ss, steps, r, h, x)
    ensures Remembers(ss[r + 1], h, x, steps[r].role)
  {
    RunStep(ss, steps, r);
    ActorChanged(ss[r], steps[r]);
    assert NodeOk(ss[r], h);
  }

  /** The host remembers what its policy said of a joiner until it reads that the joiner has left. */
  lemma {:induction false} HostRemembers(ss: seq<Sys>, steps: seq<Step>, r: nat, l: nat, h: Id, x: Id)
    requires Run(ss, steps) && r < l < |ss| && AdmitsAt(ss, steps, r, h, x)
    requires forall k :: r < k < l ==> !ReadsLeave(ss, steps, k, h, x)
    ensures Remembers(ss[l], h, x, steps[r].role)
    decreases l
  {
    if r < l - 1 {
      HostRemembers(ss, steps, r, l - 1, h, x);
      AdmitsOnce(ss, steps, r, l - 1, h, x);
      RemembersStep(ss, steps, l - 1, h, x, steps[r].role);
    } else {
      AdmitRemembers(ss, steps, r, h, x);
    }
  }

  ghost predicate ReadsAsk(ss: seq<Sys>, steps: seq<Step>, l: nat, h: Id, x: Id) {
    l < |steps| && l < |ss| && steps[l].DoRead? && steps[l].x == h && CanRead(ss[l], h) && IsAskFrom(NextFrame(ss[l], h), x)
  }

  ghost predicate Forgot(s: Sys, h: Id, x: Id) {
    h in s.nodes && x !in s.nodes[h].end.joiners && x !in s.nodes[h].end.pairwise
  }

  lemma ForgotStep(ss: seq<Sys>, steps: seq<Step>, l: nat, h: Id, x: Id)
    requires Run(ss, steps) && l < |steps| && !ReadsAsk(ss, steps, l, h, x) && h in ss[l].nodes && h in ss[l + 1].nodes
    requires Forgot(ss[l], h, x) || (ReadsLeave(ss, steps, l, h, x) && ss[l].nodes[h].end.v.keyed)
    ensures Forgot(ss[l + 1], h, x)
  {
    RunStep(ss, steps, l);
    if Actor(steps[l]) == Some(h) { ActorChanged(ss[l], steps[l]); } else { OthersUnchanged(ss[l], steps[l], h); }
  }

  /** After that it has neither a role nor a pairwise key for the departed end, unless a first flight of
      that end is still to be read. */
  lemma {:induction false} HostForgets(ss: seq<Sys>, steps: seq<Step>, l: nat, j: nat, h: Id, x: Id)
    requires Run(ss, steps) && l < j < |ss| && ReadsLeave(ss, steps, l, h, x) && ss[l].nodes[h].end.v.keyed
    requires forall k :: l < k < j ==> !ReadsAsk(ss, steps, k, h, x)
    ensures Forgot(ss[j], h, x)
    decreases j
  {
    if l < j - 1 { HostForgets(ss, steps, l, j - 1, h, x); }
    NodesStay(ss, steps, l, j, h);
    NodesStay(ss, steps, l, j - 1, h);
    ForgotStep(ss, steps, j - 1, h, x);
  }

  /** An end that becomes keyed at step `i` was admitted at an earlier step `r` by the host it has, and came
      with the join at step `q` whose wish to observe its first flight carried. From then until it is
      promoted its role is what that host's policy said at `r`. */
  lemma KeyedAsAdmitted(ss: seq<Sys>, steps: seq<Step>, i: nat, x: Id) returns (q: nat, r: nat)
    requires Run(ss, steps) && i < |steps| && x in ss[i].nodes && !ss[i].nodes[x].end.v.keyed
    requires x in ss[i + 1].nodes && ss[i + 1].nodes[x].end.v.keyed
    ensures q < r < i && AdmitsAt(ss, steps, r, ss[i].nodes[x].end.v.hostId, x)
    ensures JoinsAt(ss, steps, q, x, Carried(NextFrame(ss[r], ss[i].nodes[x].end.v.hostId)).observer)
    ensures forall l :: i < l < |ss| && (forall k :: i < k < l ==> steps[k] != DoPromote(x)) ==>
      x in ss[l].nodes && Seats(steps[r].role, ss[l].nodes[x].end.v.role)
  {
    var h := ss[i].nodes[x].end.v.hostId;
    var seat := GrantRead(ss, steps, i, x);
    r :| r < i && AdmitsAt(ss, steps, r, h, x) && Seats(steps[r].role, seat);
    q := CameFor(ss, steps, r, h, x);
    var policy := steps[r].role;
    forall l | i < l < |ss| && (forall k :: i < k < l ==> steps[k] != DoPromote(x))
      ensures x in ss[l].nodes && Seats(policy, ss[l].nodes[x].end.v.role)
    {
      RoleStays(ss, steps, i + 1, l, x);
    }
  }

  lemma GrantRead(ss: seq<Sys>, steps: seq<Step>, i: nat, x: Id) returns (seat: Role)
    requires Run(ss, steps) && i < |steps| && x in ss[i].nodes && !ss[i].nodes[x].end.v.keyed
    requires x in ss[i + 1].nodes && ss[i + 1].nodes[x].end.v.keyed
    ensures seat == ss[i + 1].nodes[x].end.v.role && Admitted(ss, steps, i, ss[i].nodes[x].end.v.hostId, x, seat)
  {
    RunStep(ss, steps, i);
    RunDue(ss, steps, i);
    assert NodeDue(ss, steps, i, x, ss[i].nodes[x]) && NodeOk(ss[i], x);
    if Actor(steps[i]) != Some(x) { OthersUnchanged(ss[i], steps[i], x); }
    ActorChanged(ss[i], steps[i]);
    seat := ss[i + 1].nodes[x].end.v.role;
    var f := NextFrame(ss[i], x);
    assert f.Direct? && f.payload.KeyGrant? && Due(ss, steps, i, f.from, x, f.payload);
  }

  // ----- The default policy -----

  function DefaultRolePolicy(observer: bool): Role {
    if observer then ROLE_OBSERVER else ROLE_MEMBER
  }

  /** Every host of the run uses the default policy. */
  ghost predicate ByDefault(ss: seq<Sys>, steps: seq<Step>) {
    forall r: nat, h, x :: AdmitsAt(ss, steps, r, h, x) ==> steps[r].role == DefaultRolePolicy(Carried(NextFrame(ss[r], h)).observer)
  }

  /** Under the default policy whoever asked to observe, and nobody else, is seated as an observer. */
  lemma DefaultSeats(ss: seq<Sys>, steps: seq<Step>, i: nat, x: Id) returns (q: nat)
    requires Run(ss, steps) && ByDefault(ss, steps) && i < |steps| && x in ss[i].nodes && !ss[i].nodes[x].end.v.keyed
    requires x in ss[i + 1].nodes && ss[i + 1].nodes[x].end.v.keyed
    ensures q < i && steps[q].DoJoin? && ss[q].nextId == x
    ensures ss[i + 1].nodes[x].end.v.role == if steps[q].observer then ROLE_OBSERVER else ROLE_MEMBER
  {
    var r: nat;
    q, r := KeyedAsAdmitted(ss, steps, i, x);
    assert Seats(steps[r].role, ss[i + 1].nodes[x].end.v.role);
  }
}
