/** What holds between a host and one of its members, as a statement about the two ends and what
    is in transit between them. */
module KeyAgreement {
  import opened Wire
  import opened Ends
  import opened SessionPipes

  /** The key the host is on, or is switching to. */
  function Target(e: End): GroupKey {
    if e.swapTo.Some? then e.swapTo.value else e.v.groupKey
  }

  predicate AnsweredOk(e: End, m: Id) {
    m in e.hist.answered && 1 <= e.hist.answered[m] <= |e.v.installed|
  }

  /** The key the host granted to `m`. */
  function Granted(e: End, m: Id): GroupKey
    requires AnsweredOk(e, m)
  {
    e.v.installed[e.hist.answered[m] - 1]
  }

  /** The granted key and every key the host has installed since. */
  function Since(e: End, m: Id): set<GroupKey>
    requires AnsweredOk(e, m)
  {
    Elems(e.v.installed[e.hist.answered[m] - 1..])
  }

  function Elems(keys: seq<GroupKey>): set<GroupKey> {
    set k | k in keys
  }

  /** What is in transit and what the host is about to write. */
  function Coming(m: Id, eh: End, ps: seq<Payload>): seq<Payload> {
    ps + About(eh.writing, m)
  }

  /** Once `m` has absorbed all that is coming it holds the host's key and pairwise key. Every key
      the host has used since the grant is already in transit, and sealed frames follow their
      keys. */
  ghost predicate Settled(m: Id, eh: End, v: KeyView, ps: seq<Payload>)
    requires m in eh.pairwise
  {
    var w := AbsorbAll(v, Coming(m, eh, ps));
    && w.keyed && !w.failed
    && w.groupKey == Target(eh)
    && w.hostPair == Some(eh.pairwise[m])
    && AnsweredOk(eh, m)
    && (forall k :: k in Since(eh, m) ==> k == Granted(eh, m) || k in AbsorbAll(v, ps).installed)
    && Ordered(v, ps, Since(eh, m), Granted(eh, m))
  }

  /** The ask is the one the end is waiting for an answer to. */
  predicate Matches(v: KeyView, ask: Payload) {
    !v.failed &&
    match ask
    case Pake1(x, _) => !v.keyed && v.joinNonce == x
    case RekeyPake1(x) => v.keyed && v.rekeyNonce == Some(x)
    case _ => false
  }

  predicate SealedUnder(e: End, ps: seq<Payload>) {
    forall i :: 0 <= i < |ps| && ps[i].Sealed? ==> ps[i].key in e.v.installed
  }

  function FlightTo(e: End, h: Id): seq<Payload> {
    if e.flight.Some? && e.flight.value.0 == h then [RekeyPake1(e.flight.value.1)] else []
  }

  /** The first flights to `h` that are in transit or recorded and about to be written. */
  function Asking(h: Id, em: End, qs: seq<Payload>): seq<Payload> {
    AsksIn(qs) + FlightTo(em, h)
  }

  predicate AskWith(p: Payload, x: nat) {
    (p.Pake1? || p.RekeyPake1?) && p.x == x
  }

  ghost predicate Unasked(h: Id, m: Id, eh: End, em: End, ps: seq<Payload>, qs: seq<Payload>) {
    m !in eh.pairwise && Silent(ps) && About(eh.writing, m) == [] && Asking(h, em, qs) == []
  }

  /** At most one first flight, the recorded one, and nothing concerning keys passes before it is
      read. */
  ghost predicate OneAsk(h: Id, m: Id, eh: End, em: End, ps: seq<Payload>, qs: seq<Payload>)
    requires h in em.hist.asked
  {
    Asking(h, em, qs) != [] ==>
      && |Asking(h, em, qs)| == 1 && AskWith(Asking(h, em, qs)[0], em.hist.asked[h])
      && m !in eh.pairwise && Silent(ps) && About(eh.writing, m) == []
  }

  /** The member can take in the answer, and whoever has been answered settles. */
  ghost predicate Live(h: Id, m: Id, eh: End, em: End, ps: seq<Payload>, qs: seq<Payload>) {
    && (Asking(h, em, qs) != [] ==> Matches(Due(em), Asking(h, em, qs)[0]))
    && (m in eh.pairwise ==> Settled(m, eh, Due(em), ps))
  }

  predicate WrapsWith(ps: seq<Payload>, x: nat) {
    forall i :: 0 <= i < |ps| && ps[i].Rekey? ==> ps[i].wrap.under.x == x
  }

  /** The nonce of the member's first flight was wiped out: it waits for no reply, and its pairwise
      key is not the one the host wraps under. */
  ghost predicate Deaf(h: Id, m: Id, eh: End, em: End, ps: seq<Payload>)
    requires h in em.hist.asked
  {
    var v, x := Due(em), em.hist.asked[h];
    && v.keyed && v.rekeyNonce == None && (v.hostPair.Some? ==> v.hostPair.value.x != x)
    && WrapsWith(ps, x) && WrapsWith(About(eh.writing, m), x)
    && (m in eh.pairwise ==> eh.pairwise[m].x == x)
  }

  /** The pair invariant: `ps` is in transit from `h` to `m`, `qs` from `m` to `h`. Before `m` has
      asked `h`, nothing concerning keys passes. After that the two are live, unless the flight
      crossed with the reply to an earlier one. */
  ghost predicate PairOk(h: Id, m: Id, eh: End, em: End, ps: seq<Payload>, qs: seq<Payload>) {
    && (h !in em.hist.asked ==> Unasked(h, m, eh, em, ps, qs))
    && (h in em.hist.asked ==>
          && em.v.hostId == h && OneAsk(h, m, eh, em, ps, qs)
          && (if h in em.hist.crossed then Deaf(h, m, eh, em, ps) else Live(h, m, eh, em, ps, qs)))
    && SealedUnder(eh, ps)
  }

  /** Towards `h` the member has asked what it had asked before. */
  predicate SameAsking(h: Id, em: End, em': End) {
    && (h in em'.hist.asked <==> h in em.hist.asked)
    && (h in em.hist.asked ==> em'.hist.asked[h] == em.hist.asked[h])
    && (h in em'.hist.crossed <==> h in em.hist.crossed)
    && FlightTo(em', h) == FlightTo(em, h)
  }

  lemma DueHost(e: End)
    ensures Due(e).hostId == e.v.hostId && Due(e).self == e.v.self
  {
  }

  lemma {:induction false} AbsorbAllRing(v: KeyView, ps: seq<Payload>)
    requires RingOk(v)
    ensures RingOk(AbsorbAll(v, ps))
  {
    if ps != [] {
      AbsorbAllRing(v, ps[..|ps| - 1]);
      AbsorbKeepsRing(AbsorbAll(v, ps[..|ps| - 1]), ps[|ps| - 1]);
    }
  }

  // ----- The member reads -----

  lemma LiveTail(h: Id, m: Id, eh: End, v: KeyView, p: Payload, ps: seq<Payload>)
    requires m in eh.pairwise && Settled(m, eh, v, [p] + ps)
    ensures Settled(m, eh, Absorb(v, p), ps)
  {
    AbsorbCons(v, p, ps);
    AbsorbCons(v, p, Coming(m, eh, ps));
    assert Coming(m, eh, [p] + ps) == [p] + Coming(m, eh, ps);
    OrderedTail(v, p, ps, Since(eh, m), Granted(eh, m));
  }

  /** An end that waits for no reply and has another pairwise key takes nothing in. */
  lemma DeafAbsorbs(v: KeyView, p: Payload, x: nat)
    requires v.keyed && v.rekeyNonce == None && (v.hostPair.Some? ==> v.hostPair.value.x != x)
    requires p.Rekey? ==> p.wrap.under.x == x
    ensures Absorb(v, p) == v
  {
  }

  /** The member reads a payload from its host. */
  lemma MemberReads(h: Id, m: Id, eh: End, em: End, p: Payload, ps: seq<Payload>, qs: seq<Payload>, em': End)
    requires PairOk(h, m, eh, em, [p] + ps, qs) && em.v.hostId == h && em.commit == None
    requires Due(em') == Absorb(em.v, p) && em'.v.hostId == h && SameAsking(h, em, em')
    ensures PairOk(h, m, eh, em', ps, qs)
  {
    assert ([p] + ps)[0] == p;
    assert forall i :: 0 <= i < |ps| ==> ([p] + ps)[i + 1] == ps[i];
    if h in em.hist.crossed && h in em.hist.asked {
      DeafAbsorbs(em.v, p, em.hist.asked[h]);
    } else if m in eh.pairwise {
      LiveTail(h, m, eh, em.v, p, ps);
    }
  }

  lemma AbsorbHost(v: KeyView, p: Payload)
    ensures Absorb(v, p).hostId == v.hostId && Absorb(v, p).self == v.self
  {
  }

  /** It reads a payload from an end that is not its host, or that concerns no keys. */
  lemma MemberIgnores(h: Id, m: Id, eh: End, em: End, p: Payload, ps: seq<Payload>, qs: seq<Payload>, em': End)
    requires PairOk(h, m, eh, em, [p] + ps, qs) && (em.v.hostId != h || Inert(p))
    requires Due(em') == Due(em) && em'.v.hostId == em.v.hostId && SameAsking(h, em, em')
    ensures PairOk(h, m, eh, em', ps, qs)
  {
    assert ([p] + ps)[0] == p;
    assert forall i :: 0 <= i < |ps| ==> ([p] + ps)[i + 1] == ps[i];
    if h in em.hist.asked && h !in em.hist.crossed && m in eh.pairwise {
      LiveTail(h, m, eh, Due(em), p, ps);
    }
  }

  /** Other changes to the member: to its own pairs and history, or to its keys while it has
      never asked `h`. */
  lemma MemberOther(h: Id, m: Id, eh: End, em: End, ps: seq<Payload>, qs: seq<Payload>, em': End, qs': seq<Payload>)
    requires PairOk(h, m, eh, em, ps, qs) && AsksIn(qs') == AsksIn(qs) && SameAsking(h, em, em')
    requires (Due(em') == Due(em) && em'.v.hostId == em.v.hostId) || h !in em.hist.asked
    ensures PairOk(h, m, eh, em', ps, qs')
  {
  }

  /** The member asks `h` for the first time. If it is taking in the reply to an earlier flight, that
      will wipe out the nonce. */
  lemma MemberAsks(h: Id, m: Id, eh: End, em: End, ps: seq<Payload>, qs: seq<Payload>, x: nat)
    requires PairOk(h, m, eh, em, ps, qs) && h !in em.hist.asked && h !in em.hist.crossed && em.v.hostId == h
    requires MayAsk(em) && em.flight == None && !em.v.failed
    requires Due(em).hostPair.Some? ==> Due(em).hostPair.value.x != x
    ensures PairOk(h, m, eh, Asked(em, x), ps, qs)
  {
    assert Asking(h, Asked(em, x), qs) == [RekeyPake1(x)];
  }

  /** The recorded flight is written. */
  lemma MemberFlies(h: Id, m: Id, eh: End, em: End, ps: seq<Payload>, qs: seq<Payload>)
    requires PairOk(h, m, eh, em, ps, qs) && em.flight.Some? && em.flight.value.0 == h
    ensures PairOk(h, m, eh, em.(flight := None), ps, qs + [RekeyPake1(em.flight.value.1)])
  {
    var ask, em' := RekeyPake1(em.flight.value.1), em.(flight := None);
    AsksConcat(qs, [ask]);
    assert AsksIn([ask]) == [ask];
    assert Asking(h, em', qs + [ask]) == Asking(h, em, qs);
  }

  // ----- The host acts -----

  /** The host's answer, once absorbed, settles the asking end. */
  lemma AnswerSettles(h: Id, m: Id, eh: End, v: KeyView, ask: Payload, ps: seq<Payload>, y: nat, role: Role, eh': End)
    requires IsAsk(ask) && Matches(v, ask) && Silent(ps) && v.hostId == h && v.self == m
    requires RingOk(eh.v) && eh.v.keyed && eh.v.self == h && Quiet(eh)
    requires eh' == (if ask.Pake1? then AnswerJoin(eh, m, ask.x, y, role) else AnswerRekey(eh, m, ask.x, y))
    ensures m in eh'.pairwise && Settled(m, eh', v, ps)
  {
    var g := eh.v.groupKey;
    AnswerAccepted(h, m, eh, v, ask, ps, y, role, eh');
    GrantedNow(eh', m, g);
    OrderedGrant(v, ps, g);
  }

  lemma AnswerAccepted(h: Id, m: Id, eh: End, v: KeyView, ask: Payload, ps: seq<Payload>, y: nat, role: Role, eh': End)
    requires IsAsk(ask) && Matches(v, ask) && Silent(ps) && v.hostId == h && v.self == m && eh.v.self == h
    requires eh' == (if ask.Pake1? then AnswerJoin(eh, m, ask.x, y, role) else AnswerRekey(eh, m, ask.x, y))
    ensures var w := AbsorbAll(v, Coming(m, eh', ps));
      w.keyed && !w.failed && w.groupKey == eh.v.groupKey && w.hostPair == Some(eh'.pairwise[m])
  {
    var a, b := eh'.writing[0].1, eh'.writing[1].1;
    AnswerComing(m, eh'.writing);
    assert Coming(m, eh', ps) == ps + [a] + [b];
    AnswerAbsorbed(v, ps, a, b);
    AnswerTaken(v, ask, y, Clamp(role), eh.v.groupKey, a, b);
  }

  /** Right after an answer, what counts as granted or used since is the current key alone. */
  lemma GrantedNow(e: End, m: Id, g: GroupKey)
    requires m in e.hist.answered && e.hist.answered[m] == |e.v.installed| && e.v.installed != []
    requires e.v.installed[|e.v.installed| - 1] == g
    ensures AnsweredOk(e, m) && Since(e, m) == {g} && Granted(e, m) == g
  {
    assert e.v.installed[e.hist.answered[m] - 1..] == [g];
  }

  /** The host reads the ask and answers it with two payloads. */
  lemma HostAnswers(h: Id, m: Id, eh: End, em: End, ask: Payload, ps: seq<Payload>, qs: seq<Payload>,
                    y: nat, role: Role, eh': End)
    requires PairOk(h, m, eh, em, ps, [ask] + qs) && IsAsk(ask)
    requires RingOk(eh.v) && eh.v.keyed && eh.v.self == h && em.v.self == m && Quiet(eh)
    requires eh' == (if ask.Pake1? then AnswerJoin(eh, m, ask.x, y, role) else AnswerRekey(eh, m, ask.x, y))
    ensures PairOk(h, m, eh', em, ps, qs)
  {
    AskFirst(ask, qs);
    assert Asking(h, em, [ask] + qs) == [ask] + Asking(h, em, qs);
    DueHost(em);
    AnswerComing(m, eh'.writing);
    if h !in em.hist.crossed { AnswerSettles(h, m, eh, Due(em), ask, ps, y, role, eh'); }
  }

  lemma AnswerAbsorbed(v: KeyView, ps: seq<Payload>, a: Payload, b: Payload)
    requires Silent(ps)
    ensures AbsorbAll(v, ps + [a] + [b]) == Absorb(Absorb(v, a), b)
  {
    AbsorbSilent(v, ps);
    AbsorbSnoc(v, ps, a);
    AbsorbSnoc(v, ps + [a], b);
  }

  /** The two payloads of an answer leave the asking end with the granted key. */
  lemma AnswerTaken(v: KeyView, ask: Payload, y: nat, role: Role, g: GroupKey, a: Payload, b: Payload)
    requires IsAsk(ask) && Matches(v, ask)
    requires var pair := DerivePair(ask.x, y, v.self, v.hostId);
      if ask.Pake1? then a == Pake2(y) && b == KeyGrant(Wrap(pair, g, role, v.self))
      else a == RekeyPake2(y) && b == Rekey(Wrap(pair, g, ROLE_NONE, v.self))
    ensures var w := Absorb(Absorb(v, a), b);
      w.keyed && !w.failed && w.groupKey == g && w.hostPair == Some(DerivePair(ask.x, y, v.self, v.hostId))
  {
  }

  lemma AnswerComing(m: Id, ws: seq<(Id, Payload)>)
    requires |ws| == 2 && ws[0].0 == m && ws[1].0 == m
    ensures About(ws, m) == [ws[0].1, ws[1].1]
  {
    AboutCons(ws, m);
    AboutCons(ws[1..], m);
    assert ws[1..][1..] == [];
  }

  lemma AskFirst(ask: Payload, qs: seq<Payload>)
    requires IsAsk(ask)
    ensures AsksIn([ask] + qs) == [ask] + AsksIn(qs)
  {
    AsksConcat([ask], qs);
    assert AsksIn([ask]) == [ask];
  }

  /** The host reads a payload from `m` and does not answer. */
  lemma HostIgnores(h: Id, m: Id, eh: End, em: End, q: Payload, ps: seq<Payload>, qs: seq<Payload>, eh': End)
    requires PairOk(h, m, eh, em, ps, [q] + qs)
    requires eh'.pairwise == eh.pairwise && eh'.hist.answered == eh.hist.answered
    requires eh'.v == eh.v && eh'.swapTo == eh.swapTo && eh'.writing == eh.writing
    ensures PairOk(h, m, eh', em, ps, qs)
  {
    AskGone(h, em, q, qs);
  }

  /** Once it is read, a payload is no longer a first flight under way. */
  lemma AskGone(h: Id, em: End, q: Payload, qs: seq<Payload>)
    ensures Asking(h, em, [q] + qs) == (if IsAsk(q) then [q] else []) + Asking(h, em, qs)
  {
    AsksConcat([q], qs);
    assert AsksIn([q]) == if IsAsk(q) then [q] else [];
  }

  /** The host starts to rotate: it is about to write a re-wrap of the new key. */
  lemma HostRotates(h: Id, m: Id, eh: End, em: End, ps: seq<Payload>, qs: seq<Payload>, eh': End, key: GroupKey)
    requires PairOk(h, m, eh, em, ps, qs) && em.v.self == m && Quiet(eh)
    requires eh'.v == eh.v && eh'.hist.answered == eh.hist.answered && eh'.swapTo == Some(key)
    requires m in eh.pairwise && m in eh'.pairwise && eh'.pairwise[m] == eh.pairwise[m]
    requires About(eh'.writing, m) == [Rekey(Wrap(eh.pairwise[m], key, ROLE_NONE, m))]
    ensures PairOk(h, m, eh', em, ps, qs)
  {
    DueHost(em);
    if h !in em.hist.crossed { RotateSettles(m, eh, Due(em), ps, eh', key); }
  }

  lemma RotateSettles(m: Id, eh: End, v: KeyView, ps: seq<Payload>, eh': End, key: GroupKey)
    requires m in eh.pairwise && Settled(m, eh, v, ps) && v.self == m && Quiet(eh)
    requires eh'.v == eh.v && eh'.hist.answered == eh.hist.answered && eh'.swapTo == Some(key)
    requires m in eh'.pairwise && eh'.pairwise[m] == eh.pairwise[m]
    requires About(eh'.writing, m) == [Rekey(Wrap(eh.pairwise[m], key, ROLE_NONE, m))]
    ensures Settled(m, eh', v, ps)
  {
    AbsorbSnoc(v, ps, Rekey(Wrap(eh.pairwise[m], key, ROLE_NONE, m)));
    assert Coming(m, eh, ps) == ps;
    AbsorbAllSelf(v, ps);
  }

  /** The host writes the next of the payloads it has decided on. */
  lemma HostWrites(h: Id, m: Id, eh: End, em: End, ps: seq<Payload>, qs: seq<Payload>, eh': End)
    requires PairOk(h, m, eh, em, ps, qs) && RingOk(Due(em))
    requires eh.writing != [] && !eh.writing[0].1.Sealed? && eh' == eh.(writing := eh.writing[1..])
    ensures PairOk(h, m, eh', em, if eh.writing[0].0 == m then ps + [eh.writing[0].1] else ps, qs)
  {
    AboutFirst(eh.writing, m);
    if eh.writing[0].0 == m {
      if h in em.hist.asked && h in em.hist.crossed {
        WriteDeaf(eh.writing, m, ps, em.hist.asked[h]);
      } else if m in eh.pairwise {
        WriteSettles(m, eh, Due(em), ps, eh');
      }
    }
  }

  lemma WriteDeaf(ws: seq<(Id, Payload)>, m: Id, ps: seq<Payload>, x: nat)
    requires ws != [] && ws[0].0 == m && WrapsWith(ps, x) && WrapsWith(About(ws, m), x)
    ensures WrapsWith(ps + [ws[0].1], x) && WrapsWith(About(ws[1..], m), x)
  {
    AboutFirst(ws, m);
    var rest := About(ws[1..], m);
    assert About(ws, m)[0] == ws[0].1;
    assert forall i :: 0 <= i < |rest| ==> rest[i] == About(ws, m)[i + 1];
  }

  lemma AboutFirst(ws: seq<(Id, Payload)>, m: Id)
    requires ws != []
    ensures if ws[0].0 == m then About(ws, m) != [] && About(ws, m) == [ws[0].1] + About(ws[1..], m)
            else About(ws, m) == About(ws[1..], m)
  {
    AboutCons(ws, m);
  }

  /** What was about to be written is in transit now: the member settles as before. */
  lemma WriteSettles(m: Id, eh: End, v: KeyView, ps: seq<Payload>, eh': End)
    requires m in eh.pairwise && Settled(m, eh, v, ps) && RingOk(v)
    requires eh.writing != [] && eh.writing[0].0 == m && !eh.writing[0].1.Sealed?
    requires eh' == eh.(writing := eh.writing[1..])
    ensures Settled(m, eh', v, ps + [eh.writing[0].1])
  {
    var p := eh.writing[0].1;
    AboutFirst(eh.writing, m);
    assert Coming(m, eh, ps) == Coming(m, eh', ps + [p]);
    OrderedSnoc(v, ps, p, Since(eh, m), Granted(eh, m));
    AbsorbMore(v, ps, p);
  }

  lemma AbsorbMore(v: KeyView, ps: seq<Payload>, p: Payload)
    requires RingOk(v)
    ensures forall k :: k in AbsorbAll(v, ps).installed ==> k in AbsorbAll(v, ps + [p]).installed
  {
    AbsorbSnoc(v, ps, p);
    AbsorbAllRing(v, ps);
    forall k | k in AbsorbAll(v, ps).installed ensures k in AbsorbAll(v, ps + [p]).installed {
      InstalledGrows(AbsorbAll(v, ps), p, k);
    }
  }

  lemma {:induction false} AbsorbAllSelf(v: KeyView, ps: seq<Payload>)
    ensures AbsorbAll(v, ps).self == v.self && AbsorbAll(v, ps).hostId == v.hostId
  {
    if ps != [] {
      AbsorbAllSelf(v, ps[..|ps| - 1]);
      AbsorbHost(AbsorbAll(v, ps[..|ps| - 1]), ps[|ps| - 1]);
    }
  }

  /** The host switches to the key it has re-wrapped. */
  lemma HostSwaps(h: Id, m: Id, eh: End, em: End, ps: seq<Payload>, qs: seq<Payload>)
    requires PairOk(h, m, eh, em, ps, qs) && RingOk(Due(em))
    requires eh.swapTo.Some? && eh.writing == [] && eh.swapTo.value !in eh.v.installed
    ensures PairOk(h, m, Swapped(eh), em, ps, qs)
  {
    if h !in em.hist.crossed && m in eh.pairwise { SwapSettles(m, eh, Due(em), ps); }
  }

  lemma SwapSettles(m: Id, eh: End, v: KeyView, ps: seq<Payload>)
    requires m in eh.pairwise && Settled(m, eh, v, ps) && SealedUnder(eh, ps) && RingOk(v)
    requires eh.swapTo.Some? && eh.writing == [] && eh.swapTo.value !in eh.v.installed
    ensures Settled(m, Swapped(eh), v, ps)
  {
    var e', key := Swapped(eh), eh.swapTo.value;
    var n := eh.hist.answered[m] - 1;
    assert e'.v.installed[n..] == eh.v.installed[n..] + [key];
    assert Since(e', m) == Since(eh, m) + {key};
    OrderedGrow(v, ps, Since(eh, m), key, Granted(eh, m));
    AbsorbAllRing(v, ps);
    assert Coming(m, eh, ps) == ps;
  }

  /** The host writes a sealed frame. */
  lemma HostSends(h: Id, m: Id, eh: End, em: End, ps: seq<Payload>, qs: seq<Payload>, key: GroupKey)
    requires PairOk(h, m, eh, em, ps, qs) && key in eh.v.installed
    ensures PairOk(h, m, eh, em, ps + [Sealed(key, h)], qs)
  {
    if h !in em.hist.crossed && m in eh.pairwise { SendSettles(m, eh, Due(em), ps, Sealed(key, h)); }
  }

  lemma SendSettles(m: Id, eh: End, v: KeyView, ps: seq<Payload>, p: Payload)
    requires m in eh.pairwise && Settled(m, eh, v, ps) && p.Sealed?
    ensures Settled(m, eh, v, ps + [p])
  {
    AbsorbSnoc(v, ps, p);
    SealedSnoc(v, ps, p, Since(eh, m), Granted(eh, m));
    AbsorbConcat(v, ps, About(eh.writing, m));
    AbsorbConcat(v, ps + [p], About(eh.writing, m));
  }

  lemma SealedSnoc(v: KeyView, ps: seq<Payload>, p: Payload, since: set<GroupKey>, g: GroupKey)
    requires Ordered(v, ps, since, g) && p.Sealed?
    requires forall k :: k in since ==> k == g || k in AbsorbAll(v, ps).installed
    ensures Ordered(v, ps + [p], since, g)
  {
    assert (ps + [p])[..|ps|] == ps;
  }

  lemma {:induction false} AbsorbConcat(v: KeyView, ps: seq<Payload>, rs: seq<Payload>)
    ensures AbsorbAll(v, ps + rs) == AbsorbAll(AbsorbAll(v, ps), rs)
    decreases |rs|
  {
    if rs == [] {
      assert ps + rs == ps;
    } else {
      var n := |rs| - 1;
      AbsorbConcat(v, ps, rs[..n]);
      assert (ps + rs)[..|ps| + n] == ps + rs[..n];
    }
  }

  /** Changes to an end that does not hold a pairwise key for `m` afterwards, or that touch none of
      what the pair depends on. */
  lemma HostOther(h: Id, m: Id, eh: End, em: End, ps: seq<Payload>, qs: seq<Payload>, eh': End)
    requires PairOk(h, m, eh, em, ps, qs)
    requires forall k :: k in eh.v.installed ==> k in eh'.v.installed
    requires About(eh'.writing, m) == About(eh.writing, m) || (h in em.hist.asked && h !in em.hist.crossed && Asking(h, em, qs) == [])
    requires
      || m !in eh'.pairwise
      || (&& About(eh'.writing, m) == About(eh.writing, m) && eh'.v == eh.v && eh'.swapTo == eh.swapTo
          && m in eh.pairwise && eh'.pairwise[m] == eh.pairwise[m]
          && (m in eh.hist.answered ==> m in eh'.hist.answered && eh'.hist.answered[m] == eh.hist.answered[m]))
    ensures PairOk(h, m, eh', em, ps, qs)
  {
    if m in eh'.pairwise { HostSame(h, m, eh, em, ps, qs, eh'); }
  }

  lemma HostSame(h: Id, m: Id, eh: End, em: End, ps: seq<Payload>, qs: seq<Payload>, eh': End)
    requires PairOk(h, m, eh, em, ps, qs) && About(eh'.writing, m) == About(eh.writing, m) && eh'.v == eh.v && eh'.swapTo == eh.swapTo
    requires m in eh.pairwise && m in eh'.pairwise && eh'.pairwise[m] == eh.pairwise[m]
    requires m in eh.hist.answered ==> m in eh'.hist.answered && eh'.hist.answered[m] == eh.hist.answered[m]
    ensures PairOk(h, m, eh', em, ps, qs)
  {
  }

  /** The end itself asks `m`, which is its host. */
  lemma HostAsks(h: Id, m: Id, eh: End, em: End, ps: seq<Payload>, qs: seq<Payload>, eh': End, ask: Payload)
    requires PairOk(h, m, eh, em, ps, qs) && IsAsk(ask) && m !in eh.pairwise
    requires eh'.pairwise == eh.pairwise && eh'.writing == eh.writing && eh'.v.installed == eh.v.installed
    ensures PairOk(h, m, eh', em, ps + [ask], qs)
  {
  }

  /** Reading from `m` or from its own host changes an end that holds no pairwise key for `m`. */
  lemma HostAbsorbs(h: Id, m: Id, eh: End, em: End, q: Payload, ps: seq<Payload>, qs: seq<Payload>, eh': End)
    requires PairOk(h, m, eh, em, ps, [q] + qs) && m !in eh'.pairwise && eh'.writing == eh.writing
    requires forall k :: k in eh.v.installed ==> k in eh'.v.installed
    ensures PairOk(h, m, eh', em, ps, qs)
  {
    AskGone(h, em, q, qs);
  }

  // ----- What the invariant gives -----

  /** The head of the pipe is a frame sealed by the host: if its key was installed by the host since
      it granted one, and the grant has arrived, then the member has that key too. */
  lemma SealedKeyHeld(h: Id, m: Id, eh: End, em: End, key: GroupKey, ps: seq<Payload>, qs: seq<Payload>)
    requires PairOk(h, m, eh, em, [Sealed(key, h)] + ps, qs) && m in eh.pairwise
    requires h !in em.hist.crossed && em.commit == None
    requires key in Since(eh, m) && Granted(eh, m) in em.v.installed
    ensures key in em.v.installed
  {
    OrderedHead(em.v, Sealed(key, h), ps, Since(eh, m), Granted(eh, m));
  }

  lemma {:induction false} OrderedHead(v: KeyView, p: Payload, ps: seq<Payload>, since: set<GroupKey>, g: GroupKey)
    requires Ordered(v, [p] + ps, since, g)
    ensures p.Sealed? && p.key in since && g in v.installed ==> p.key in v.installed
    decreases |ps|
  {
    if ps == [] {
      assert ([p] + ps)[..0] == [];
    } else {
      var n := |ps| - 1;
      assert ([p] + ps)[..n + 1] == [p] + ps[..n];
      OrderedHead(v, p, ps[..n], since, g);
    }
  }
}
