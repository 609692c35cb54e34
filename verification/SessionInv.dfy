/** The invariant of a whole session, and how it survives for ends that a step does not touch. */
module SessionInv {
  import opened Wire
  import opened Ends
  import opened Session
  import opened SessionPipes
  import opened KeyAgreement

  lemma DueRing(e: End)
    requires RingOk(e.v) && (e.commit.Some? ==> e.v.keyed)
    ensures RingOk(Due(e))
  {
    if e.commit.Some? && e.commit.value.NewKey? { InstallKeepsRing(e.v, e.commit.value.key); }
  }

  // ----- One node -----

  /** Grants carry a role an end can be seated with; re-wraps carry none. */
  predicate PayloadOk(s: Sys, p: Payload) {
    match p
    case KeyGrant(w) => w.key < s.minted && w.role != ROLE_NONE && w.role != ROLE_HOST
    case Rekey(w) => w.key < s.minted && w.role == ROLE_NONE
    case _ => true
  }

  predicate FrameOk(s: Sys, x: Id, f: Frame) {
    match f
    case ParticipantJoined(_) => true
    case ParticipantLeft(w) => w !in s.members && w < s.nextId
    case Direct(from, to, p) => to == x && from < s.nextId && (from != x || p.Sealed?) && PayloadOk(s, p)
    case Broadcast(from, p) => from != x && from < s.nextId && p.Sealed?
    case _ => false
  }

  predicate OutOk(s: Sys, x: Id, o: Out) {
    match o
    case ToOne(to, p) => to < s.nextId && (to != x || p.Sealed?) && PayloadOk(s, p)
    case ToAll(_) => true
  }

  predicate RoleOk(e: End) {
    && (e.v.role == ROLE_HOST ==> e.hist.creator || e.hist.promoted)
    && (e.v.keyed && !e.hist.creator && !e.hist.promoted ==>
          e.v.role == e.hist.seat && e.v.role != ROLE_NONE && e.v.role != ROLE_HOST)
    && (!e.v.keyed ==> e.v.role == ROLE_NONE && !e.hist.creator && !e.hist.promoted)
  }

  ghost predicate KeysOk(s: Sys, e: End) {
    && RingOk(e.v)
    && (forall k :: k in e.v.installed ==> k < s.minted)
    && (e.swapTo.Some? ==> e.swapTo.value < s.minted && e.swapTo.value !in e.v.installed)
    && (e.commit.Some? ==>
          e.v.keyed && (e.commit.value.NewKey? ==> e.commit.value.key < s.minted && e.commit.value.role == ROLE_NONE))
  }

  predicate PairOld(s: Sys, pair: Option<PairKey>) {
    pair.Some? ==> pair.value.x < s.nonce
  }

  /** Every nonce the end has to do with was issued before. */
  ghost predicate NoncesOk(s: Sys, e: End) {
    && (!e.v.keyed ==> e.v.joinNonce < s.nonce)
    && PairOld(s, e.v.hostPair) && PairOld(s, e.v.joinPair) && PairOld(s, Due(e).hostPair)
    && (e.v.rekeyNonce.Some? ==> e.v.rekeyNonce.value < s.nonce)
    && e.hist.crossed <= e.hist.asked.Keys
  }

  predicate WriteOk(s: Sys, x: Id, w: (Id, Payload)) {
    w.0 < s.nextId && w.0 != x && PayloadOk(s, w.1) && !Inert(w.1)
  }

  ghost predicate DutyOk(s: Sys, x: Id, e: End) {
    && (forall i :: 0 <= i < |e.writing| ==> WriteOk(s, x, e.writing[i]))
    && (forall m :: m in e.pairwise ==> m < s.nextId && m != x)
    && (e.v.role == ROLE_HOST ==> e.v.keyed && e.v.hostId == x)
    && (e.v.role != ROLE_HOST ==> e.pairwise == map[] && Quiet(e) && e.v.hostId != x)
    && (e.commit.Some? ==> e.pairwise == map[] && Quiet(e))
    && (e.flight.Some? ==> e.flight.value.0 < s.nextId && e.flight.value.0 != x)
  }

  ghost predicate EndOk(s: Sys, x: Id, e: End) {
    && e.v.self == x && e.v.hostId < s.nextId && (e.v.failed ==> !e.v.keyed)
    && KeysOk(s, e) && NoncesOk(s, e) && RoleOk(e) && DutyOk(s, x, e)
    && (forall w :: w in e.hist.seenLeft ==> w !in s.members && w < s.nextId)
    && (forall g :: g in e.hist.asked ==> g < s.nextId)
  }

  ghost predicate NodeOk(s: Sys, x: Id)
    requires x in s.nodes
  {
    var n := s.nodes[x];
    && n.read <= |n.stream|
    && (forall i :: 0 <= i < |n.stream| ==> FrameOk(s, x, n.stream[i]))
    && (forall i :: 0 <= i < |n.outbox| ==> OutOk(s, x, n.outbox[i]))
    && (forall i :: 0 <= i < |n.outbox| && n.outbox[i].ToAll? ==> n.outbox[i].key in n.end.v.installed)
    && (forall i :: 0 <= i < |n.sealed| ==> n.sealed[i] in n.end.v.installed)
    && EndOk(s, x, n.end)
  }

  // ----- The session -----

  ghost predicate PairHolds(s: Sys, h: Id, m: Id) {
    && h in s.nodes && m in s.nodes
    && s.nodes[h].read <= |s.nodes[h].stream| && s.nodes[m].read <= |s.nodes[m].stream|
    && PairOk(h, m, s.nodes[h].end, s.nodes[m].end,
              Pipe(s.nodes[h], s.nodes[m], h, m), Pipe(s.nodes[m], s.nodes[h], m, h))
  }

  ghost predicate Shape(s: Sys) {
    && (forall x :: x in s.nodes <==> 1 <= x < s.nextId)
    && s.members <= s.nodes.Keys
    && s.relayHost in s.nodes
  }

  ghost predicate NodesOk(s: Sys) {
    forall x {:trigger NodeOk(s, x)} :: x in s.nodes ==> NodeOk(s, x)
  }

  ghost predicate PairsOk(s: Sys) {
    forall h, m {:trigger PairHolds(s, h, m)} :: h in s.members && m in s.members && h != m ==> PairHolds(s, h, m)
  }

  ghost predicate Inv(s: Sys) {
    Shape(s) && NodesOk(s) && PairsOk(s)
  }

  // ----- Nodes that a step does not touch -----

  /** Nobody comes back, and ids and keys are only ever issued. */
  predicate Later(s: Sys, s': Sys) {
    && s.nextId <= s'.nextId && s.minted <= s'.minted && s.nonce <= s'.nonce
    && (forall w :: w in s'.members && w < s.nextId ==> w in s.members)
  }

  lemma NodeLater(s: Sys, s': Sys, x: Id)
    requires x in s.nodes && NodeOk(s, x) && Later(s, s') && x in s'.nodes && s'.nodes[x] == s.nodes[x]
    ensures NodeOk(s', x)
  {
    var n := s.nodes[x];
    forall i | 0 <= i < |n.stream| ensures FrameOk(s', x, n.stream[i]) { assert FrameOk(s, x, n.stream[i]); }
    forall i | 0 <= i < |n.outbox| ensures OutOk(s', x, n.outbox[i]) { assert OutOk(s, x, n.outbox[i]); }
    var ws := n.end.writing;
    forall i | 0 <= i < |ws| ensures WriteOk(s', x, ws[i]) { assert WriteOk(s, x, ws[i]); }
  }
}
