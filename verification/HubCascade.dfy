/** The eviction cascade: telling survivors that a slow participant left can overflow the next
    one. While no writer receives frames, who ends up evicted is settled by free space alone,
    whatever order maps are walked in and evictions are listed in. */
module HubCascade {
  import opened Wire
  import opened HubSpec
  import opened HubViews

  function Free(c: Client): int {
    SEND_BUFFER - Backlog(c)
  }

  /** Those who cannot take `k` departure notices, or have overflowed already. */
  function Overflowing(s: HubState, k: nat): set<Id> {
    set id | id in s.clients && (s.clients[id].evicting || Free(s.clients[id]) < k)
  }

  /** The least number of departures, from `k` on, that overflows no more than itself. */
  function Settle(s: HubState, k: nat): (t: nat)
    ensures t >= k && |Overflowing(s, t)| <= t
    ensures forall j :: k <= j < t ==> |Overflowing(s, j)| > j
    decreases |s.clients| - k
  {
    if |Overflowing(s, k)| <= k then k
    else
      Bounded(s, k);
      Settle(s, k + 1)
  }

  lemma Bounded(s: HubState, k: nat)
    ensures |Overflowing(s, k)| <= |s.clients|
  {
    Subset(Overflowing(s, k), s.clients.Keys);
  }

  lemma {:induction false} Subset(a: set<Id>, b: set<Id>)
    requires a <= b
    ensures |a| <= |b|
  {
    assert b == a + (b - a);
  }

  function Threshold(s: HubState): nat {
    Settle(s, 0)
  }

  function Doomed(s: HubState): set<Id> {
    Overflowing(s, Threshold(s))
  }

  /** The doomed set is the least fixpoint: its size is its own threshold, and any count that
      overflows no more than itself dooms at least these. */
  lemma DoomedIsLeastFixpoint(s: HubState, k: nat)
    ensures |Doomed(s)| == Threshold(s)
    ensures |Overflowing(s, k)| <= k ==> Threshold(s) <= k && Doomed(s) <= Overflowing(s, k)
  {
    var t := Threshold(s);
    if t > 0 {
      assert |Overflowing(s, t - 1)| > t - 1;
      Subset(Overflowing(s, t - 1), Overflowing(s, t));
    }
  }

  predicate Spills(s: HubState, k: nat, x: Id)
    requires x in s.clients
  {
    s.clients[x].evicting || Free(s.clients[x]) < k
  }

  predicate Caught(t: Drops, m: HubState, x: Id) {
    x in IdSet(t) || (x in m.clients && m.clients[x].evicting)
  }

  /** A remaining client that is not marked got one frame per drop. */
  predicate Filled(s: HubState, t: Drops, m: HubState, x: Id)
    requires x in s.clients
  {
    x in m.clients && !m.clients[x].evicting ==>
      !s.clients[x].evicting && Backlog(m.clients[x]) == Backlog(s.clients[x]) + Count(t)
  }

  /** Where a cascade from `s` stands after the drops `t`: removed or marked are exactly those
      whom that many departures overflow. */
  ghost predicate Cascading(s: HubState, t: Drops, m: HubState) {
    && m.clients.Keys <= s.clients.Keys
    && (forall x {:trigger Caught(t, m, x)} :: x in s.clients ==> (Caught(t, m, x) <==> Spills(s, Count(t), x)))
    && (forall x {:trigger Filled(s, t, m, x)} :: x in s.clients ==> Filled(s, t, m, x))
  }

  lemma QuietOffer(c: Client, f: Frame, c': Client)
    requires Queued(c, f, c', false)
    ensures c' == Offered(c, f)
  {
  }

  lemma CascadeStart(s: HubState)
    requires Mid(s)
    ensures Cascading(s, Start, s)
  {
    forall x | x in s.clients ensures Caught(Start, s, x) <==> Spills(s, 0, x) {
      assert SlotOk(s, x);
    }
  }

  /** A departure is offered to every client that remains, and to no other. */
  lemma DropOffers(m: HubState, id: Id, m': HubState, x: Id)
    requires Mid(m) && DrainStep(m, id, m', false) && id in m.clients
    requires m'.clients.Keys == m.clients.Keys - {id} && x in m'.clients
    ensures m'.clients[x] == Offered(m.clients[x], ParticipantLeft(id)) && ChannelOk(m.clients[x])
  {
    var w := Without(PopEvict(m), id);
    assert SlotOk(m, x) && w.clients[x] == m.clients[x] && 1 <= x;
    assert Fanned(w, ParticipantLeft(id), 0, m', x, false);
    QuietOffer(w.clients[x], ParticipantLeft(id), m'.clients[x]);
  }

  /** One more departure marks exactly those left with no room for it. */
  lemma CascadeStep(s: HubState, t: Drops, m': HubState)
    requires t.Drop? && Mid(t.at) && Cascading(s, t.before, t.at) && DrainStep(t.at, t.id, m', false)
    requires t.at.clients.Keys == s.clients.Keys - IdSet(t.before)
    requires m'.clients.Keys == t.at.clients.Keys - {t.id} && t.id in t.at.clients && t.at.clients[t.id].evicting
    ensures Cascading(s, t, m')
  {
    forall x | x in s.clients ensures Caught(t, m', x) <==> Spills(s, Count(t), x) {
      CascadeElement(s, t, m', x);
    }
    forall x | x in s.clients ensures Filled(s, t, m', x) {
      CascadeElement(s, t, m', x);
    }
  }

  lemma CascadeElement(s: HubState, t: Drops, m': HubState, x: Id)
    requires t.Drop? && Mid(t.at) && Cascading(s, t.before, t.at) && DrainStep(t.at, t.id, m', false)
    requires t.at.clients.Keys == s.clients.Keys - IdSet(t.before)
    requires m'.clients.Keys == t.at.clients.Keys - {t.id} && t.id in t.at.clients && t.at.clients[t.id].evicting
    requires x in s.clients
    ensures (Caught(t, m', x) <==> Spills(s, Count(t), x)) && Filled(s, t, m', x)
  {
    assert Caught(t.before, t.at, x) <==> Spills(s, Count(t.before), x);
    assert Filled(s, t.before, t.at, x);
    if x in m'.clients {
      DropOffers(t.at, t.id, m', x);
    }
  }

  lemma {:induction false} CascadeTrace(s: HubState, t: Drops, m': HubState)
    requires Mid(s) && !s.over && DrainTrace(s, t, m', false)
    ensures Cascading(s, t, m')
  {
    if t.Start? {
      CascadeStart(s);
    } else {
      CascadeTrace(s, t.before, t.at);
      CascadeMarked(s, t, m');
      CascadeStep(s, t, m');
    }
  }

  lemma CascadeMarked(s: HubState, t: Drops, m': HubState)
    requires Mid(s) && !s.over && DrainTrace(s, t, m', false) && t.Drop?
    ensures Mid(t.at) && t.at.clients.Keys == s.clients.Keys - IdSet(t.before)
    ensures IdSet(t.before) <= s.clients.Keys && |IdSet(t.before)| == Count(t.before)
    ensures m'.clients.Keys == t.at.clients.Keys - {t.id} && t.id in t.at.clients && t.at.clients[t.id].evicting
  {
    DrainMid(s, t.before, t.at, false);
    DrainRemoves(s, t.before, t.at, false);
    OnceCounts(t.before);
    DrainStepKeeps(t.at, t.id, m', false);
    assert t.at.evict[0] in t.at.evict;
  }

  /** While somebody is still listed, more have overflowed than have been dropped. */
  lemma {:induction false} CascadeUnsettled(s: HubState, t: Drops, m': HubState)
    requires Mid(s) && !s.over && DrainTrace(s, t, m', false)
    ensures forall j :: 0 <= j < Count(t) ==> |Overflowing(s, j)| > j
  {
    if t.Drop? {
      CascadeUnsettled(s, t.before, t.at);
      LastUnsettled(s, t, m');
    }
  }

  lemma LastUnsettled(s: HubState, t: Drops, m': HubState)
    requires Mid(s) && !s.over && DrainTrace(s, t, m', false) && t.Drop?
    ensures |Overflowing(s, Count(t.before))| > Count(t.before)
  {
    CascadeMarked(s, t, m');
    CascadeTrace(s, t.before, t.at);
    MoreOverflow(s, t);
  }

  lemma MoreOverflow(s: HubState, t: Drops)
    requires t.Drop? && Cascading(s, t.before, t.at) && IdSet(t.before) <= s.clients.Keys
    requires |IdSet(t.before)| == Count(t.before)
    requires t.id in s.clients && t.id !in IdSet(t.before) && t.id in t.at.clients && t.at.clients[t.id].evicting
    ensures |Overflowing(s, Count(t.before))| > Count(t.before)
  {
    var gone := IdSet(t.before) + {t.id};
    forall x | x in gone ensures x in Overflowing(s, Count(t.before)) {
      assert Caught(t.before, t.at, x);
    }
    Subset(gone, Overflowing(s, Count(t.before)));
  }

  /** Every completed drain without concurrent receives evicts exactly the doomed. */
  lemma CascadeConfluent(s: HubState, t: Drops, s': HubState)
    requires Mid(s) && !s.over && Drained(s, t, s', false)
    ensures IdSet(t) == Doomed(s) && Count(t) == Threshold(s)
    ensures s'.clients.Keys == s.clients.Keys - Doomed(s)
  {
    CascadeUnsettled(s, t, s');
    DrainRemoves(s, t, s', false);
    OnceCounts(t);
    DroppedOverflow(s, t, s');
    DoomedIsLeastFixpoint(s, Count(t));
  }

  /** Those evicted are those who overflow under as many departures. */
  lemma DroppedOverflow(s: HubState, t: Drops, s': HubState)
    requires Mid(s) && !s.over && Drained(s, t, s', false)
    ensures IdSet(t) == Overflowing(s, Count(t))
  {
    CascadeTrace(s, t, s');
    DrainRemoves(s, t, s', false);
    NoneMarked(s, t, s');
    forall x | x in s.clients ensures x in IdSet(t) <==> x in Overflowing(s, Count(t)) {
      assert Caught(t, s', x) <==> Spills(s, Count(t), x);
    }
  }

  lemma NoneMarked(s: HubState, t: Drops, s': HubState)
    requires Mid(s) && !s.over && Drained(s, t, s', false)
    ensures forall x :: x in s'.clients ==> !s'.clients[x].evicting
  {
    DrainRemoves(s, t, s', false);
    DrainMid(s, t, s', false);
  }

  // ----- Whole commands -----

  /** Two outcomes that differ at most in the order of the evict list. */
  predicate SameButOrder(a: HubState, b: HubState) {
    a == b.(evict := a.evict)
  }

  lemma BroadcastQuiet(s: HubState, f: Frame, except: Id, a: HubState, b: HubState)
    requires BroadcastStep(s, f, except, a, false) && BroadcastStep(s, f, except, b, false)
    ensures SameButOrder(a, b)
  {
    forall id | id in s.clients ensures a.clients[id] == b.clients[id] {
      assert Fanned(s, f, except, a, id, false) && Fanned(s, f, except, b, id, false);
    }
    assert a.clients == b.clients;
    assert KickedConns(s, a) == KickedConns(s, b);
  }

  lemma SendQuiet(s: HubState, to: Id, f: Frame, a: HubState, b: HubState)
    requires SendStep(s, to, f, a, false) && SendStep(s, to, f, b, false)
    ensures SameButOrder(a, b)
  {
    if to in s.clients {
      forall id | id in s.clients ensures a.clients[id] == b.clients[id] {
        assert Sent(s, f, to, a, id, false) && Sent(s, f, to, b, id, false);
      }
      assert a.clients == b.clients;
      assert KickedConns(s, a) == KickedConns(s, b);
    }
  }

  lemma RemoveQuiet(s: HubState, id: Id, a: HubState, b: HubState)
    requires RemoveStep(s, id, a, false) && RemoveStep(s, id, b, false)
    ensures SameButOrder(a, b)
  {
    if id in s.clients && |s.clients - {id}| != 0 {
      BroadcastQuiet(Without(s, id), ParticipantLeft(id), 0, a, b);
    }
  }

  lemma ForwardQuiet(s: HubState, from: Id, msg: Routed, a: HubState, b: HubState)
    requires ForwardStep(s, from, msg, a, false) && ForwardStep(s, from, msg, b, false)
    ensures SameButOrder(a, b)
  {
    match msg {
      case BadDirect => SendQuiet(s, from, Error(ERR_BAD_FRAME), a, b);
      case BadBroadcast => SendQuiet(s, from, Error(ERR_BAD_FRAME), a, b);
      case ToOne(to, p) =>
        if to in s.clients {
          SendQuiet(s, to, Direct(from, to, p), a, b);
        } else {
          SendQuiet(s, from, Error(ERR_UNKNOWN_PEER), a, b);
        }
      case ToAll(p) => BroadcastQuiet(s, Broadcast(from, p), from, a, b);
    }
  }

  lemma HandlerQuiet(s: HubState, cmd: Command, ra: Reply, a: HubState, rb: Reply, b: HubState)
    requires HandlerStep(s, cmd, ra, a, false) && HandlerStep(s, cmd, rb, b, false)
    ensures ra == rb && SameButOrder(a, b)
  {
    match cmd {
      case Join(isCreate, conn, token) =>
        if |s.clients| < s.max {
          BroadcastQuiet(Registered(s, isCreate, conn, token), ParticipantJoined(s.nextId), s.nextId, a, b);
        }
      case Leave(id, gen, unexpected) =>
        if LeaveMatches(s, id, gen) && !Holds(s, unexpected) { RemoveQuiet(s, id, a, b); }
      case GraceExpired(id, gen) =>
        if ExpiryMatches(s, id, gen) { RemoveQuiet(s, id, a, b); }
      case Forward(from, msg) => ForwardQuiet(s, from, msg, a, b);
      case Close(reason) =>
        var m :| BroadcastStep(s, SessionClosed(reason), 0, m, false) && a == Ended(m);
        var n :| BroadcastStep(s, SessionClosed(reason), 0, n, false) && b == Ended(n);
        BroadcastQuiet(s, SessionClosed(reason), 0, m, n);
      case _ =>
    }
  }

  /** A command handled twice from the same state, with maps walked and evictions listed in any
      two orders, replies the same and evicts the same participants. */
  lemma CommandConfluent(s: HubState, cmd: Command,
                         ra: Reply, ta: Drops, a: HubState, rb: Reply, tb: Drops, b: HubState)
    requires Boundary(s) && (cmd.Join? ==> s.nextId + 1 < ID_SPACE)
    requires CommandStep(s, cmd, ra, ta, a, false) && CommandStep(s, cmd, rb, tb, b, false)
    ensures ra == rb && IdSet(ta) == IdSet(tb) && Count(ta) == Count(tb)
    ensures a.clients.Keys == b.clients.Keys
  {
    var m := CommandEvicts(s, cmd, ra, ta, a);
    var n := CommandEvicts(s, cmd, rb, tb, b);
    HandlerQuiet(s, cmd, ra, m, rb, n);
    DoomedByClients(m, n);
  }

  lemma CommandEvicts(s: HubState, cmd: Command, reply: Reply, t: Drops, s': HubState) returns (m: HubState)
    requires Boundary(s) && (cmd.Join? ==> s.nextId + 1 < ID_SPACE)
    requires CommandStep(s, cmd, reply, t, s', false)
    ensures HandlerStep(s, cmd, reply, m, false)
    ensures m.over ==> t == Start && s' == m
    ensures !m.over ==> IdSet(t) == Doomed(m) && Count(t) == Threshold(m) && s'.clients.Keys == m.clients.Keys - Doomed(m)
  {
    m :| HandlerStep(s, cmd, reply, m, false) && DrainUnlessOver(m, t, s', false);
    if !m.over {
      HandlerKeeps(s, cmd, reply, m, false);
      CascadeConfluent(m, t, s');
    }
  }

  lemma DoomedByClients(m: HubState, n: HubState)
    requires m.clients == n.clients
    ensures Doomed(m) == Doomed(n) && Threshold(m) == Threshold(n)
  {
    assert forall k: nat :: Overflowing(m, k) == Overflowing(n, k);
    DoomedIsLeastFixpoint(m, Threshold(n));
    DoomedIsLeastFixpoint(n, Threshold(m));
  }
}
