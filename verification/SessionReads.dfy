/** Reading a frame keeps what holds between two ends. */
module SessionReads {
  import opened Wire
  import opened Ends
  import opened Session
  import opened SessionPipes
  import opened KeyAgreement

  /** The end that reads: idle, its join not failed, and a host only if it says so. */
  predicate Reader(x: Id, e: End) {
    && e.v.self == x && RingOk(e.v) && Idle(e) && !e.v.failed
    && (e.v.role == ROLE_HOST ==> e.v.keyed && e.v.hostId == x)
    && (e.v.role != ROLE_HOST ==> e.pairwise == map[] && e.v.hostId != x)
  }

  function Sender(f: Frame): Option<Id> {
    match f
    case Direct(from, _, _) => Some(from)
    case Broadcast(from, _) => Some(from)
    case _ => None
  }

  function Carried(f: Frame): Payload
    requires Sender(f).Some?
  {
    match f
    case Direct(_, _, p) => p
    case Broadcast(_, p) => p
  }

  // ----- The reader as a host -----

  /** A departure makes the host start to rotate, for every end it still has a pairwise key with. */
  lemma LeftHost(x: Id, m: Id, e: End, em: End, ps: seq<Payload>, qs: seq<Payload>, who: Id, minted: nat, outs: seq<(Id, Payload)>)
    requires PairOk(x, m, e, em, ps, qs) && Reader(x, e) && em.v.self == m && who != m && e.v.keyed
    requires Rotates(e, ParticipantLeft(who)) ==> Covers(outs, e.pairwise - {who}, minted)
    ensures PairOk(x, m, HandleLeft(e, who, minted, outs), em, ps, qs)
  {
    var e' := HandleLeft(e, who, minted, outs);
    if Rotates(e, ParticipantLeft(who)) {
      CoversAbout(outs, e.pairwise - {who}, minted, m);
      if m in e.pairwise {
        HostRotates(x, m, e, em, ps, qs, e', minted);
      } else {
        HostOther(x, m, e, em, ps, qs, e');
      }
    } else {
      assert m in e.pairwise ==> m in (e.pairwise - {who}).Keys;
      HostOther(x, m, e, em, ps, qs, e');
    }
  }

  lemma CoversAbout(outs: seq<(Id, Payload)>, pairwise: map<Id, PairKey>, key: GroupKey, m: Id)
    requires Covers(outs, pairwise, key)
    ensures About(outs, m) == if m in pairwise then [Rekey(Wrap(pairwise[m], key, ROLE_NONE, m))] else []
  {
    if m in pairwise {
      var i :| 0 <= i < |outs| && outs[i] == RekeyFor(pairwise, key, m);
      AboutOnce(outs, m, i);
    } else {
      AboutNobody(outs, m);
    }
  }

  predicate Answers(e: End, p: Payload) {
    (p.Pake1? && e.v.role == ROLE_HOST) || (p.RekeyPake1? && IsHost(e))
  }

  /** A payload from the member itself. */
  lemma PayloadHost(x: Id, m: Id, e: End, em: End, p: Payload, ps: seq<Payload>, qs: seq<Payload>, y: nat, role: Role)
    requires PairOk(x, m, e, em, ps, [p] + qs) && Reader(x, e) && em.v.self == m && e.v.keyed && m != x
    ensures PairOk(x, m, HandlePayload(e, m, p, y, role), em, ps, qs)
  {
    var e' := HandlePayload(e, m, p, y, role);
    if Answers(e, p) {
      HostAnswers(x, m, e, em, p, ps, qs, y, role, e');
    } else {
      HostIgnores(x, m, e, em, p, ps, qs, e');
    }
  }

  /** A payload from somebody else. */
  lemma ThirdHost(x: Id, m: Id, e: End, em: End, g: Id, p: Payload, ps: seq<Payload>, qs: seq<Payload>, y: nat, role: Role)
    requires PairOk(x, m, e, em, ps, qs) && Reader(x, e) && e.v.keyed && g != m && (g == x ==> p.Sealed?)
    ensures PairOk(x, m, HandlePayload(e, g, p, y, role), em, ps, qs)
  {
    var e' := HandlePayload(e, g, p, y, role);
    AboutNobody(e'.writing, m);
    HostOther(x, m, e, em, ps, qs, e');
  }

  // ----- The reader as a member -----

  lemma PayloadMember(m: Id, x: Id, em: End, e: End, p: Payload, ps: seq<Payload>, qs: seq<Payload>, e': End)
    requires PairOk(m, x, em, e, [p] + ps, qs) && SameAsking(m, e, e') && e.commit == None
    requires e'.v.hostId == e.v.hostId
    requires if e.v.hostId == m then Due(e') == Absorb(e.v, p) || (Inert(p) && Due(e') == e.v) else Due(e') == e.v
    ensures PairOk(m, x, em, e', ps, qs)
  {
    if e.v.hostId == m && Due(e') == Absorb(e.v, p) {
      MemberReads(m, x, em, e, p, ps, qs, e');
    } else {
      MemberIgnores(m, x, em, e, p, ps, qs, e');
    }
  }

  lemma ThirdMember(m: Id, x: Id, em: End, e: End, ps: seq<Payload>, qs: seq<Payload>, e': End)
    requires PairOk(m, x, em, e, ps, qs) && SameAsking(m, e, e') && e'.v.hostId == e.v.hostId
    requires e.v.hostId == m ==> Due(e') == Due(e)
    ensures PairOk(m, x, em, e', ps, qs)
  {
    MemberOther(m, x, em, e, ps, qs, e', qs);
  }

  /** What reading a frame makes of the reader's key state, once it is through with the frame. */
  lemma ReceiveDue(e: End, f: Frame, minted: nat, y: nat, role: Role, outs: seq<(Id, Payload)>)
    requires Idle(e) && !e.v.failed && (f.Broadcast? ==> f.payload.Sealed?) && !f.SessionClosed?
    ensures var e' := Receive(e, f, minted, y, role, outs);
      && e'.v.hostId == e.v.hostId && (forall h :: SameAsking(h, e, e'))
      && Due(e') == if Sender(f) == Some(e.v.hostId) && !Inert(Carried(f)) then Absorb(e.v, Carried(f)) else e.v
  {
    if Sender(f).Some? && e.v.keyed { DecidesAbsorb(e.v, Carried(f)); }
  }

  // ----- Whole frames -----

  lemma ReadHost(x: Id, m: Id, e: End, em: End, f: Frame, ps: seq<Payload>, qs: seq<Payload>,
                 minted: nat, y: nat, role: Role, outs: seq<(Id, Payload)>)
    requires PairOk(x, m, e, em, ps, PayloadFrom(f, m) + qs) && Reader(x, e) && em.v.self == m && m != x
    requires (f.ParticipantLeft? ==> f.who != m) && (Sender(f) == Some(x) ==> Carried(f).Sealed?)
    requires Rotates(e, f) ==> Covers(outs, e.pairwise - {f.who}, minted)
    ensures PairOk(x, m, Receive(e, f, minted, y, role, outs), em, ps, qs)
  {
    var e' := Receive(e, f, minted, y, role, outs);
    assert [] + qs == qs;
    if !e.v.keyed {
      if Sender(f) == Some(m) {
        HostAbsorbs(x, m, e, em, Carried(f), ps, qs, e');
      } else {
        HostOther(x, m, e, em, ps, qs, e');
      }
    } else if f.ParticipantLeft? {
      LeftHost(x, m, e, em, ps, qs, f.who, minted, outs);
    } else if Sender(f) == Some(m) {
      PayloadHost(x, m, e, em, Carried(f), ps, qs, y, role);
    } else if Sender(f).Some? {
      ThirdHost(x, m, e, em, Sender(f).value, Carried(f), ps, qs, y, role);
    }
  }

  lemma ReadMember(m: Id, x: Id, em: End, e: End, f: Frame, ps: seq<Payload>, qs: seq<Payload>,
                   minted: nat, y: nat, role: Role, outs: seq<(Id, Payload)>)
    requires PairOk(m, x, em, e, PayloadFrom(f, m) + ps, qs) && Reader(x, e) && m != x
    requires f.Broadcast? ==> f.payload.Sealed?
    requires !f.SessionClosed?
    ensures PairOk(m, x, em, Receive(e, f, minted, y, role, outs), ps, qs)
  {
    var e' := Receive(e, f, minted, y, role, outs);
    assert [] + ps == ps;
    ReceiveDue(e, f, minted, y, role, outs);
    assert SameAsking(m, e, e');
    if Sender(f) == Some(m) {
      PayloadMember(m, x, em, e, Carried(f), ps, qs, e');
    } else {
      ThirdMember(m, x, em, e, ps, qs, e');
    }
  }
}
