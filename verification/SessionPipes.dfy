/** What is in transit from one end to another, and what absorbing it leads to. */
module SessionPipes {
  import opened Wire
  import opened Ends
  import opened Session

  // ----- Payloads in transit -----

  function PayloadFrom(f: Frame, h: Id): seq<Payload> {
    match f
    case Direct(from, _, p) => if from == h then [p] else []
    case Broadcast(from, p) => if from == h then [p] else []
    case _ => []
  }

  /** The payloads from `h` among frames not yet read. */
  function From(fs: seq<Frame>, h: Id): seq<Payload> {
    if fs == [] then [] else From(fs[..|fs| - 1], h) + PayloadFrom(fs[|fs| - 1], h)
  }

  function PayloadTo(o: Out, h: Id, m: Id): seq<Payload> {
    match o
    case ToOne(to, p) => if to == m then [p] else []
    case ToAll(key) => [Sealed(key, h)]
  }

  /** The payloads for `m` among what `h` has written and the relay not yet routed. */
  function To(os: seq<Out>, h: Id, m: Id): seq<Payload> {
    if os == [] then [] else To(os[..|os| - 1], h, m) + PayloadTo(os[|os| - 1], h, m)
  }

  /** The payloads for `m` that `h` is about to write. */
  function About(ws: seq<(Id, Payload)>, m: Id): seq<Payload> {
    if ws == [] then []
    else About(ws[..|ws| - 1], m) + (if ws[|ws| - 1].0 == m then [ws[|ws| - 1].1] else [])
  }

  function Unread(n: Node): seq<Frame>
    requires n.read <= |n.stream|
  {
    n.stream[n.read..]
  }

  /** Everything written by `h` on its way to `m`, in the order in which `m` will read it. */
  function Pipe(nh: Node, nm: Node, h: Id, m: Id): seq<Payload>
    requires nm.read <= |nm.stream|
  {
    From(Unread(nm), h) + To(nh.outbox, h, m)
  }

  lemma FromSnoc(fs: seq<Frame>, f: Frame, h: Id)
    ensures From(fs + [f], h) == From(fs, h) + PayloadFrom(f, h)
  {
    assert (fs + [f])[..|fs|] == fs;
  }

  lemma ToSnoc(os: seq<Out>, o: Out, h: Id, m: Id)
    ensures To(os + [o], h, m) == To(os, h, m) + PayloadTo(o, h, m)
  {
    assert (os + [o])[..|os|] == os;
  }

  lemma {:induction false} FromCons(fs: seq<Frame>, h: Id)
    requires fs != []
    ensures From(fs, h) == PayloadFrom(fs[0], h) + From(fs[1..], h)
    decreases |fs|
  {
    var n := |fs| - 1;
    if n > 0 {
      FromCons(fs[..n], h);
      assert fs[..n][1..] == fs[1..][..n - 1];
    } else {
      assert fs[..0] == [] && fs[1..] == [];
    }
  }

  lemma {:induction false} ToCons(os: seq<Out>, h: Id, m: Id)
    requires os != []
    ensures To(os, h, m) == PayloadTo(os[0], h, m) + To(os[1..], h, m)
    decreases |os|
  {
    var n := |os| - 1;
    if n > 0 {
      ToCons(os[..n], h, m);
      assert os[..n][1..] == os[1..][..n - 1];
    } else {
      assert os[..0] == [] && os[1..] == [];
    }
  }

  lemma {:induction false} AboutCons(ws: seq<(Id, Payload)>, m: Id)
    requires ws != []
    ensures About(ws, m) == (if ws[0].0 == m then [ws[0].1] else []) + About(ws[1..], m)
    decreases |ws|
  {
    var n := |ws| - 1;
    if n > 0 {
      AboutCons(ws[..n], m);
      assert ws[..n][1..] == ws[1..][..n - 1];
    } else {
      assert ws[..0] == [] && ws[1..] == [];
    }
  }

  lemma {:induction false} AboutNobody(ws: seq<(Id, Payload)>, m: Id)
    requires forall i :: 0 <= i < |ws| ==> ws[i].0 != m
    ensures About(ws, m) == []
  {
    if ws != [] { AboutNobody(ws[..|ws| - 1], m); }
  }

  /** Re-wraps reach an end exactly once. */
  lemma {:induction false} AboutOnce(ws: seq<(Id, Payload)>, m: Id, i: nat)
    requires i < |ws| && ws[i].0 == m
    requires forall j, k :: 0 <= j < k < |ws| ==> ws[j].0 != ws[k].0
    ensures About(ws, m) == [ws[i].1]
    decreases |ws|
  {
    var n := |ws| - 1;
    if i < n {
      AboutOnce(ws[..n], m, i);
    } else {
      AboutNobody(ws[..n], m);
    }
  }

  // ----- Absorbing a sequence of payloads -----

  function AbsorbAll(v: KeyView, ps: seq<Payload>): KeyView {
    if ps == [] then v else Absorb(AbsorbAll(v, ps[..|ps| - 1]), ps[|ps| - 1])
  }

  lemma AbsorbSnoc(v: KeyView, ps: seq<Payload>, p: Payload)
    ensures AbsorbAll(v, ps + [p]) == Absorb(AbsorbAll(v, ps), p)
  {
    assert (ps + [p])[..|ps|] == ps;
  }

  lemma {:induction false} AbsorbCons(v: KeyView, p: Payload, ps: seq<Payload>)
    ensures AbsorbAll(v, [p] + ps) == AbsorbAll(Absorb(v, p), ps)
    decreases |ps|
  {
    if ps == [] {
      AbsorbSnoc(v, [], p);
      assert [p] + ps == [] + [p];
    } else {
      var n := |ps| - 1;
      AbsorbCons(v, p, ps[..n]);
      assert ([p] + ps)[..n + 1] == [p] + ps[..n];
    }
  }

  /** Payloads that leave every key state alone. */
  predicate Inert(p: Payload) {
    p.Sealed? || p.Pake1? || p.RekeyPake1?
  }

  predicate Silent(ps: seq<Payload>) {
    forall i :: 0 <= i < |ps| ==> Inert(ps[i])
  }

  lemma {:induction false} AbsorbSilent(v: KeyView, ps: seq<Payload>)
    requires Silent(ps)
    ensures AbsorbAll(v, ps) == v
  {
    if ps != [] { AbsorbSilent(v, ps[..|ps| - 1]); }
  }

  // ----- Asks -----

  predicate IsAsk(p: Payload) {
    p.Pake1? || p.RekeyPake1?
  }

  /** The first PAKE flights among `ps`. */
  function AsksIn(ps: seq<Payload>): seq<Payload> {
    if ps == [] then []
    else AsksIn(ps[..|ps| - 1]) + (if IsAsk(ps[|ps| - 1]) then [ps[|ps| - 1]] else [])
  }

  lemma {:induction false} AsksConcat(ps: seq<Payload>, qs: seq<Payload>)
    ensures AsksIn(ps + qs) == AsksIn(ps) + AsksIn(qs)
    decreases |qs|
  {
    if qs == [] {
      assert ps + qs == ps;
    } else {
      var n := |qs| - 1;
      AsksConcat(ps, qs[..n]);
      assert (ps + qs)[..|ps| + n] == ps + qs[..n];
    }
  }

  lemma {:induction false} NoAsks(ps: seq<Payload>)
    requires forall i :: 0 <= i < |ps| ==> !IsAsk(ps[i])
    ensures AsksIn(ps) == []
  {
    if ps != [] { NoAsks(ps[..|ps| - 1]); }
  }

  // ----- Sealed frames behind their keys -----

  /** Once the granted key `g` is installed, every frame sealed under a key in `since` comes after
      that key. */
  ghost predicate Ordered(v: KeyView, ps: seq<Payload>, since: set<GroupKey>, g: GroupKey) {
    ps == [] ||
    var n := |ps| - 1;
    && Ordered(v, ps[..n], since, g)
    && (ps[n].Sealed? && ps[n].key in since && g in AbsorbAll(v, ps[..n]).installed ==>
          ps[n].key in AbsorbAll(v, ps[..n]).installed)
  }

  lemma OrderedSnoc(v: KeyView, ps: seq<Payload>, p: Payload, since: set<GroupKey>, g: GroupKey)
    requires Ordered(v, ps, since, g)
    requires p.Sealed? && p.key in since ==> p.key in AbsorbAll(v, ps).installed
    ensures Ordered(v, ps + [p], since, g)
  {
    assert (ps + [p])[..|ps|] == ps;
  }

  lemma {:induction false} OrderedTail(v: KeyView, p: Payload, ps: seq<Payload>, since: set<GroupKey>, g: GroupKey)
    requires Ordered(v, [p] + ps, since, g)
    ensures Ordered(Absorb(v, p), ps, since, g)
    decreases |ps|
  {
    if ps != [] {
      var n := |ps| - 1;
      assert ([p] + ps)[..n + 1] == [p] + ps[..n];
      OrderedTail(v, p, ps[..n], since, g);
      AbsorbCons(v, p, ps[..n]);
    }
  }

  lemma {:induction false} OrderedGrow(v: KeyView, ps: seq<Payload>, since: set<GroupKey>, k: GroupKey, g: GroupKey)
    requires Ordered(v, ps, since, g)
    requires forall i :: 0 <= i < |ps| && ps[i].Sealed? ==> ps[i].key != k
    ensures Ordered(v, ps, since + {k}, g)
  {
    if ps != [] {
      OrderedGrow(v, ps[..|ps| - 1], since, k, g);
    }
  }

  /** With nothing granted but `g` itself, the order holds of anything. */
  lemma {:induction false} OrderedGrant(v: KeyView, ps: seq<Payload>, g: GroupKey)
    ensures Ordered(v, ps, {g}, g)
  {
    if ps != [] { OrderedGrant(v, ps[..|ps| - 1], g); }
  }

  lemma InstalledGrows(v: KeyView, p: Payload, k: GroupKey)
    requires RingOk(v) && k in v.installed
    ensures k in Absorb(v, p).installed
  {
  }
}
