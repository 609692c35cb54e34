/** Electing a new host without coordination: every survivor runs the same policy on its own copy of
    the roster. */
module Election {
  import opened Wire

  type Roster = map<Id, Role>

  predicate MemberTier(r: Role) {
    r == ROLE_HOST || r == ROLE_MEMBER
  }

  ghost predicate LeastOf(id: Id, ids: set<Id>) {
    id in ids && forall j :: j in ids ==> id <= j
  }

  function Tier(c: Roster): set<Id> {
    set id | id in c && MemberTier(c[id])
  }

  /** What the default policy is documented to pick: the least id of the member tier, or else the
      least id, or else 0. */
  ghost predicate Picks(c: Roster, s: Id) {
    if Tier(c) != {} then LeastOf(s, Tier(c))
    else if c.Keys != {} then LeastOf(s, c.Keys)
    else s == 0
  }

  lemma PicksOne(c: Roster, s: Id, t: Id)
    requires Picks(c, s) && Picks(c, t)
    ensures s == t
  {
  }

  // ----- The loop, for one order of iteration -----

  /** One iteration of a running minimum that takes 0 for "none yet". */
  function Lower(best: Id, id: Id): Id {
    if best == 0 || id < best then id else best
  }

  function Over(order: seq<Id>, eligible: set<Id>): Id {
    if order == [] then 0
    else
      var id, best := order[|order| - 1], Over(order[..|order| - 1], eligible);
      if id in eligible then Lower(best, id) else best
  }

  function PolicyOver(order: seq<Id>, c: Roster): Id {
    var member := Over(order, Tier(c));
    if member != 0 then member else Over(order, c.Keys)
  }

  function Elements(order: seq<Id>): set<Id> {
    set id | id in order
  }

  predicate OrderOf(order: seq<Id>, c: Roster) {
    Elements(order) == c.Keys && forall i, j :: 0 <= i < j < |order| ==> order[i] != order[j]
  }

  lemma {:induction false} OverIsLeast(order: seq<Id>, eligible: set<Id>)
    requires 0 !in Elements(order) * eligible
    ensures if Elements(order) * eligible == {} then Over(order, eligible) == 0
            else LeastOf(Over(order, eligible), Elements(order) * eligible)
  {
    if order != [] {
      var n := |order| - 1;
      var rest, id := order[..n], order[n];
      assert order == rest + [id];
      assert Elements(order) == Elements(rest) + {id};
      OverIsLeast(rest, eligible);
      var all, before := Elements(order) * eligible, Elements(rest) * eligible;
      if id in eligible {
        assert all == before + {id};
        assert id != 0 by { assert id in all; }
      } else {
        assert all == before;
      }
    }
  }

  /** Without id 0 among the candidates, every order of iteration gives the documented pick. */
  lemma OrderIrrelevant(order: seq<Id>, c: Roster)
    requires OrderOf(order, c) && 0 !in c
    ensures Picks(c, PolicyOver(order, c))
  {
    assert Elements(order) * Tier(c) == Tier(c);
    assert Elements(order) * c.Keys == c.Keys;
    OverIsLeast(order, Tier(c));
    OverIsLeast(order, c.Keys);
  }

  // ----- Id 0 among the candidates -----

  /** Whether every order gives the same successor. */
  ghost predicate Deterministic(c: Roster) {
    forall o1, o2 :: OrderOf(o1, c) && OrderOf(o2, c) ==> PolicyOver(o1, c) == PolicyOver(o2, c)
  }

  /** Id 0, which the hub issues after its counter has wrapped, is also the policy's "none". */
  predicate Clear(c: Roster) {
    || 0 !in c
    || c.Keys == {0}
    || (!MemberTier(c[0]) && Tier(c) != {})
  }

  lemma {:induction false} OrderExists(ids: set<Id>) returns (order: seq<Id>)
    ensures Elements(order) == ids && forall i, j :: 0 <= i < j < |order| ==> order[i] != order[j]
    decreases |ids|
  {
    if ids == {} {
      order := [];
    } else {
      var id :| id in ids;
      var rest := OrderExists(ids - {id});
      order := rest + [id];
      assert Elements(order) == Elements(rest) + {id};
      assert id !in rest by { assert id in rest ==> id in Elements(rest); }
      assert forall i :: 0 <= i < |rest| ==> order[i] in Elements(rest);
    }
  }

  /** Id 0 coming last wipes out every minimum it takes part in. */
  lemma ZeroLast(rest: seq<Id>, eligible: set<Id>)
    requires 0 in eligible
    ensures Over(rest + [0], eligible) == 0
  {
    assert (rest + [0])[..|rest|] == rest;
  }

  lemma {:induction false} ZeroFirst(rest: seq<Id>, eligible: set<Id>)
    requires 0 !in rest
    ensures Over([0] + rest, eligible) == Over(rest, eligible)
    decreases |rest|
  {
    if rest != [] {
      var n := |rest| - 1;
      assert ([0] + rest)[..n + 1] == [0] + rest[..n];
      assert 0 !in rest[..n];
      ZeroFirst(rest[..n], eligible);
    } else {
      assert ([0] + rest)[..0] == [];
    }
  }

  lemma ClearIsDeterministic(c: Roster, order: seq<Id>)
    requires Clear(c) && OrderOf(order, c)
    ensures Picks(c, PolicyOver(order, c))
  {
    if 0 !in c {
      OrderIrrelevant(order, c);
    } else if Tier(c) != {} && !MemberTier(c[0]) {
      assert Elements(order) * Tier(c) == Tier(c);
      OverIsLeast(order, Tier(c));
    } else {
      OnlyZero(order, c);
    }
  }

  lemma OnlyZero(order: seq<Id>, c: Roster)
    requires c.Keys == {0} && OrderOf(order, c)
    ensures Picks(c, PolicyOver(order, c))
  {
    forall i | 0 <= i < |order| ensures order[i] == 0 { assert order[i] in Elements(order); }
    AllZero(order, Tier(c));
    AllZero(order, c.Keys);
    assert LeastOf(0, c.Keys);
    if Tier(c) != {} {
      var id :| id in Tier(c);
      assert id == 0;
      assert LeastOf(0, Tier(c));
    }
  }

  lemma {:induction false} AllZero(order: seq<Id>, eligible: set<Id>)
    requires forall i :: 0 <= i < |order| ==> order[i] == 0
    ensures Over(order, eligible) == 0
  {
    if order != [] { AllZero(order[..|order| - 1], eligible); }
  }

  /** Two orders of the candidates: id 0 first, and id 0 last. */
  lemma ZeroOrders(c: Roster) returns (rest: seq<Id>)
    requires 0 in c
    ensures Elements(rest) == c.Keys - {0} && 0 !in rest && OrderOf([0] + rest, c) && OrderOf(rest + [0], c)
  {
    rest := OrderExists(c.Keys - {0});
    assert 0 !in rest by { assert 0 in rest ==> 0 in Elements(rest); }
    assert Elements([0] + rest) == Elements(rest) + {0} && Elements(rest + [0]) == Elements(rest) + {0};
    assert c.Keys - {0} + {0} == c.Keys;
  }

  lemma ZeroFirstPicks(rest: seq<Id>, c: Roster)
    requires !Clear(c) && Elements(rest) == c.Keys - {0} && 0 !in rest
    ensures PolicyOver([0] + rest, c) != 0
  {
    ZeroFirst(rest, c.Keys);
    assert Elements(rest) * c.Keys == c.Keys - {0};
    OverIsLeast(rest, c.Keys);
  }

  lemma UnclearDiffers(c: Roster) returns (o1: seq<Id>, o2: seq<Id>)
    requires !Clear(c)
    ensures OrderOf(o1, c) && OrderOf(o2, c) && PolicyOver(o1, c) != PolicyOver(o2, c)
  {
    var rest := ZeroOrders(c);
    o1, o2 := [0] + rest, rest + [0];
    ZeroFirstPicks(rest, c);
    ZeroLastTier(rest, c);
  }

  lemma ZeroLastTier(rest: seq<Id>, c: Roster)
    requires !Clear(c) && Elements(rest) == c.Keys - {0}
    ensures PolicyOver(rest + [0], c) == 0
  {
    ZeroLast(rest, c.Keys);
    if 0 in Tier(c) {
      ZeroLast(rest, Tier(c));
    } else {
      assert Tier(c) == {};
      NoneEligible(rest + [0], Tier(c));
    }
  }

  lemma {:induction false} NoneEligible(order: seq<Id>, eligible: set<Id>)
    requires eligible == {}
    ensures Over(order, eligible) == 0
  {
    if order != [] { NoneEligible(order[..|order| - 1], eligible); }
  }

  /** The result is independent of the order of iteration exactly when id 0 is not a candidate, is
      the only one, or is passed over for a member-tier candidate; and then it is the documented
      pick. */
  lemma DeterministicExactly(c: Roster)
    ensures Deterministic(c) <==> Clear(c)
    ensures Clear(c) ==> forall order :: OrderOf(order, c) ==> Picks(c, PolicyOver(order, c))
  {
    if Clear(c) {
      forall order | OrderOf(order, c) ensures Picks(c, PolicyOver(order, c)) { ClearIsDeterministic(c, order); }
      forall o1, o2 | OrderOf(o1, c) && OrderOf(o2, c) ensures PolicyOver(o1, c) == PolicyOver(o2, c) {
        PicksOne(c, PolicyOver(o1, c), PolicyOver(o2, c));
      }
    } else {
      var o1, o2 := UnclearDiffers(c);
    }
  }

  // ----- The methods -----

  /** The candidates visited so far, each once. */
  ghost predicate Visited(order: seq<Id>, c: Roster, todo: set<Id>) {
    && Elements(order) == c.Keys - todo
    && forall i, j :: 0 <= i < j < |order| ==> order[i] != order[j]
  }

  lemma VisitedMore(order: seq<Id>, c: Roster, todo: set<Id>, id: Id)
    requires Visited(order, c, todo) && id in todo && id in c
    ensures Visited(order + [id], c, todo - {id})
  {
    assert id !in order by { assert id in order ==> id in Elements(order); }
    assert Elements(order + [id]) == Elements(order) + {id};
  }

  lemma OverMore(order: seq<Id>, id: Id, eligible: set<Id>)
    ensures Over(order + [id], eligible) ==
      if id in eligible then Lower(Over(order, eligible), id) else Over(order, eligible)
  {
    assert (order + [id])[..|order|] == order;
  }

  /** The loop visits the candidates in an order of its own choosing. */
  method DefaultSuccessorPolicy(candidates: Roster) returns (s: Id, ghost order: seq<Id>)
    ensures OrderOf(order, candidates) && s == PolicyOver(order, candidates)
    ensures Clear(candidates) ==> Picks(candidates, s)
  {
    var member: Id, least: Id := 0, 0;
    var todo := candidates.Keys;
    order := [];
    while todo != {}
      invariant todo <= candidates.Keys && Visited(order, candidates, todo)
      invariant member == Over(order, Tier(candidates)) && least == Over(order, candidates.Keys)
      decreases |todo|
    {
      var id :| id in todo;
      if least == 0 || id < least { least := id; }
      if MemberTier(candidates[id]) && (member == 0 || id < member) { member := id; }
      OverMore(order, id, Tier(candidates));
      OverMore(order, id, candidates.Keys);
      VisitedMore(order, candidates, todo, id);
      order, todo := order + [id], todo - {id};
    }
    if Clear(candidates) { ClearIsDeterministic(candidates, order); }
    s := if member != 0 then member else least;
  }

  /** The policy's result, if it is among the candidates. */
  function Elected(order: seq<Id>, c: Roster): Id {
    if PolicyOver(order, c) in c then PolicyOver(order, c) else 0
  }

  /** Where an end stands: its host, its role, and whether it has just promoted itself. */
  datatype Seat = Seat(hostId: Id, role: Role, promoted: bool)

  /** What the departure of the host makes of an end that elects `s`. */
  function Migrated(self: Id, seat: Seat, s: Id): Seat {
    if s == 0 then seat
    else if s == self then Seat(self, ROLE_HOST, true)
    else seat.(hostId := s)
  }

  /** What a survivor knows: its own id, its host and the last roster announced. */
  class Survivor {
    const self: Id
    var hostId: Id
    var role: Role
    var roster: Roster

    constructor (self: Id, hostId: Id, role: Role, roster: Roster)
      ensures this.self == self && this.hostId == hostId && this.role == role && this.roster == roster
    {
      this.self, this.hostId, this.role, this.roster := self, hostId, role, roster;
    }

    method ElectSuccessor(leaver: Id) returns (s: Id, ghost order: seq<Id>)
      ensures OrderOf(order, roster - {leaver}) && s == Elected(order, roster - {leaver})
      ensures Clear(roster - {leaver}) ==> Picks(roster - {leaver}, s)
      ensures s == 0 || s in roster - {leaver}
    {
      var candidates: Roster := map[];
      var todo := roster.Keys;
      while todo != {}
        invariant todo <= roster.Keys
        invariant candidates == map id | id in roster && id !in todo && id != leaver :: roster[id]
        decreases |todo|
      {
        var id :| id in todo;
        if id != leaver { candidates := candidates[id := roster[id]]; }
        todo := todo - {id};
      }
      assert candidates == roster - {leaver};
      s, order := DefaultSuccessorPolicy(candidates);
      if s !in candidates { s := 0; }
    }

    /** The departure of the host: promote itself or follow the elected one. */
    method MaybeMigrate(left: Id) returns (promoted: bool, ghost order: seq<Id>)
      modifies this`hostId, this`role
      ensures left != old(hostId) ==> hostId == old(hostId) && role == old(role) && !promoted
      ensures left == old(hostId) ==>
        && OrderOf(order, roster - {left})
        && Seat(hostId, role, promoted) == Migrated(self, Seat(left, old(role), false), Elected(order, roster - {left}))
    {
      promoted, order := false, [];
      if left != hostId { return; }
      var s;
      s, order := ElectSuccessor(left);
      if s == 0 { return; }
      promoted := s == self;
      if promoted {
        role, hostId := ROLE_HOST, self;
      } else {
        hostId := s;
      }
    }
  }

  /** Where an end stands after the departure of its host. */
  function Outcome(x: Id, roster: Roster, leaver: Id, order: seq<Id>, role: Role): Seat {
    Migrated(x, Seat(leaver, role, false), Elected(order, roster - {leaver}))
  }

  /** Any survivors with the same roster and the same leaver, each iterating in an order of its own:
      unless the pick is 0, in which case nothing changes anywhere, they all set one and the same
      host, the documented pick. Somebody promotes itself, and then exactly the pick, if and only
      if the pick is one of the survivors: a roster may list ends that have left. */
  lemma ElectionIsUnique(roster: Roster, leaver: Id, orders: map<Id, seq<Id>>, roles: map<Id, Role>) returns (h: Id)
    requires Clear(roster - {leaver}) && roles.Keys == orders.Keys
    requires forall x :: x in orders ==> OrderOf(orders[x], roster - {leaver})
    ensures Picks(roster - {leaver}, h)
    ensures h == 0 ==> forall x :: x in orders ==> Outcome(x, roster, leaver, orders[x], roles[x]) == Seat(leaver, roles[x], false)
    ensures h != 0 ==> forall x :: x in orders ==>
      Outcome(x, roster, leaver, orders[x], roles[x]) == Seat(h, if x == h then ROLE_HOST else roles[x], x == h)
    ensures (exists x :: x in orders && Outcome(x, roster, leaver, orders[x], roles[x]).promoted) <==> h != 0 && h in orders
  {
    var c := roster - {leaver};
    var order := OrderExists(c.Keys);
    ElectedPick(order, c);
    h := Elected(order, c);
    forall x | x in orders ensures Elected(orders[x], c) == h {
      ElectedPick(orders[x], c);
      PicksOne(c, Elected(orders[x], c), h);
    }
    if h in orders { assert Outcome(h, roster, leaver, orders[h], roles[h]) == Migrated(h, Seat(leaver, roles[h], false), h); }
  }

  lemma PicksAnother(x: Id, roster: Roster, leaver: Id, order: seq<Id>, role: Role, h: Id)
    requires Clear(roster - {leaver}) && OrderOf(order, roster - {leaver}) && Picks(roster - {leaver}, h) && h != 0 && h != x
    ensures Outcome(x, roster, leaver, order, role) == Seat(h, role, false)
  {
    ElectedPick(order, roster - {leaver});
    PicksOne(roster - {leaver}, Elected(order, roster - {leaver}), h);
  }

  const STALE: Roster := map[1 := ROLE_HOST, 2 := ROLE_MEMBER, 3 := ROLE_MEMBER, 4 := ROLE_MEMBER]

  lemma StalePick()
    ensures Clear(STALE - {2}) && Picks(STALE - {2}, 1)
  {
    assert 1 in Tier(STALE - {2});
  }

  /** The creator 1 has left and 2 has taken over, but 3 and 4 still list 1: when 2 leaves they both set
      the departed 1, and neither promotes itself. */
  lemma StaleRosterElectsNobody(x: Id, order: seq<Id>)
    requires x == 3 || x == 4
    requires OrderOf(order, STALE - {2})
    ensures Outcome(x, STALE, 2, order, ROLE_MEMBER) == Seat(1, ROLE_MEMBER, false)
  {
    StalePick();
    PicksAnother(x, STALE, 2, order, ROLE_MEMBER, 1);
  }

  lemma ElectedPick(order: seq<Id>, c: Roster)
    requires Clear(c) && OrderOf(order, c)
    ensures Picks(c, Elected(order, c))
    ensures Elected(order, c) == 0 || Elected(order, c) in c
  {
    ClearIsDeterministic(c, order);
  }
}
