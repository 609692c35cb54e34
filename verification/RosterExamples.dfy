/** A session, step by step, in which rosters go stale until an election picks an end that has left. */
module RosterExamples {
  import opened Wire
  import opened Election
  import opened Rosters

  ghost predicate Reaches(s: State) {
    exists ss, steps {:trigger Run(ss, steps)} :: Run(ss, steps) && ss[|ss| - 1] == s
  }

  lemma More(s: State, a: Step, s': State)
    requires Reaches(s) && Enabled(s, a) && s' == Next(s, a)
    ensures Reaches(s')
  {
    var ss, steps :| Run(ss, steps) && ss[|ss| - 1] == s;
    var ss', steps' := ss + [s'], steps + [a];
    forall i | 0 <= i < |steps'| ensures Takes(ss', steps', i) {
      if i < |steps| { assert Takes(ss, steps, i); }
    }
    assert Run(ss', steps');
  }

  const TWO: Roster := map[1 := ROLE_HOST, 2 := ROLE_MEMBER]
  const THREE: Roster := map[1 := ROLE_HOST, 2 := ROLE_MEMBER, 3 := ROLE_MEMBER]
  const PRUNED: Roster := map[2 := ROLE_HOST, 3 := ROLE_MEMBER, 4 := ROLE_MEMBER]

  function Creator(roster: Roster, inbox: seq<Event>, outbox: seq<Post>): End {
    End(1, ROLE_HOST, roster, {0}, 0, inbox, outbox, false)
  }

  function Member(host: Id, roster: Roster, inbox: seq<Event>, behind: bool): End {
    End(host, ROLE_MEMBER, roster, {0}, 0, inbox, [], behind)
  }

  function Joined(inbox: seq<Event>): End {
    Member(1, map[], inbox, true)
  }

  function Three(e: End): map<Id, End> {
    map[2 := e, 3 := e, 4 := e]
  }

  /** The creator and three members in one and the same state. */
  function Full(creator: End, e: End): State {
    State(Three(e)[1 := creator], 5, 1)
  }

  // ----- Everybody joins and hears the roster -----

  lemma Admits(s: State, inbox: seq<Event>, s': State)
    requires Reaches(s) && 1 in s.live && 0 < s.nextId && s.live[1] == Creator(map[1 := ROLE_HOST], inbox, [])
    requires s' == State(s.live[1 := Creator(map[1 := ROLE_HOST], inbox + [Keyed(s.nextId, ROLE_MEMBER)], [])][s.nextId := Joined([])],
                         s.nextId + 1, s.minted)
    ensures Reaches(s')
  {
    More(s, DoEnter(1, ROLE_MEMBER), s');
  }

  lemma Arrivals()
    ensures Reaches(Full(Creator(map[1 := ROLE_HOST], [Keyed(2, ROLE_MEMBER), Keyed(3, ROLE_MEMBER), Keyed(4, ROLE_MEMBER)], []), Joined([])))
  {
    var r := map[1 := ROLE_HOST];
    var k2, k3, k4 := Keyed(2, ROLE_MEMBER), Keyed(3, ROLE_MEMBER), Keyed(4, ROLE_MEMBER);
    assert Run([Start()], []);
    assert [k2] == [] + [k2] && [k2, k3] == [k2] + [k3] && [k2, k3, k4] == [k2, k3] + [k4];
    var s1 := State(map[1 := Creator(r, [k2], []), 2 := Joined([])], 3, 1);
    assert s1.live == Start().live[1 := Creator(r, [k2], [])][2 := Joined([])];
    Admits(Start(), [], s1);
    var s2 := State(map[1 := Creator(r, [k2, k3], []), 2 := Joined([]), 3 := Joined([])], 4, 1);
    assert s2.live == s1.live[1 := Creator(r, [k2, k3], [])][3 := Joined([])];
    Admits(s1, [k2], s2);
    var s3 := Full(Creator(r, [k2, k3, k4], []), Joined([]));
    assert s3.live == s2.live[1 := Creator(r, [k2, k3, k4], [])][4 := Joined([])];
    Admits(s2, [k2, k3], s3);
  }

  lemma FullHears(c: End, c': End, e: End, f: Event)
    ensures Tell(Full(c, e).live - {1}, Post(true, {}, f))[1 := c'] == Full(c', Got(e, f)).live
  {
  }

  lemma FullPut(c: End, c': End, e: End)
    ensures Full(c, e).live[1 := c'] == Full(c', e).live
  {
  }

  /** The creator reads that `w` is keyed, announces, and the relay routes it. */
  lemma Announcing(r: Roster, w: Id, rest: seq<Event>, r': Roster, inbox: seq<Event>)
    requires Reaches(Full(Creator(r, [Keyed(w, ROLE_MEMBER)] + rest, []), Joined(inbox))) && r' == r[w := ROLE_MEMBER]
    ensures Reaches(Full(Creator(r', rest, []), Joined(inbox + [Announce(1, r', 0)])))
  {
    var f := Announce(1, r', 0);
    var p := Post(true, {}, f);
    var c0, c1, c2 := Creator(r, [Keyed(w, ROLE_MEMBER)] + rest, []), Creator(r', rest, [p]), Creator(r', rest, []);
    assert c0.inbox[1..] == rest && [] + [p] == [p] && [p][1..] == [];
    assert Reads(c0, 1, [], 1) == c1;
    FullPut(c0, c1, Joined(inbox));
    More(Full(c0, Joined(inbox)), DoRead(1, []), Full(c1, Joined(inbox)));
    FullHears(c1, c2, Joined(inbox), f);
    assert Got(Joined(inbox), f) == Joined(inbox + [f]);
    More(Full(c1, Joined(inbox)), DoRoute(1), Full(c2, Joined(inbox + [f])));
  }

  function Said(): seq<Event> {
    [Announce(1, TWO, 0), Announce(1, THREE, 0), Announce(1, STALE, 0)]
  }

  lemma Announcements()
    ensures Reaches(Full(Creator(STALE, [], []), Joined(Said())))
  {
    var k2, k3, k4 := Keyed(2, ROLE_MEMBER), Keyed(3, ROLE_MEMBER), Keyed(4, ROLE_MEMBER);
    Arrivals();
    assert [k2, k3, k4] == [k2] + [k3, k4] && [k3, k4] == [k3] + [k4] && [k4] == [k4] + [];
    Announcing(map[1 := ROLE_HOST], 2, [k3, k4], TWO, []);
    Announcing(TWO, 3, [k4], THREE, [] + [Announce(1, TWO, 0)]);
    Announcing(THREE, 4, [], STALE, [] + [Announce(1, TWO, 0)] + [Announce(1, THREE, 0)]);
    assert [] + [Announce(1, TWO, 0)] + [Announce(1, THREE, 0)] + [Announce(1, STALE, 0)] == Said();
  }

  /** One end reads. */
  lemma ReadsOne(s: State, x: Id, order: seq<Id>, e: End)
    requires Reaches(s) && x in s.live && s.live[x].inbox != [] && !IsHost(s.live[x]) && !IsHost(e)
    requires (Bereaved(s.live[x]) ==> OrderOf(order, s.live[x].roster - {s.live[x].hostId})) && e == Reads(s.live[x], x, order, s.minted)
    ensures Reaches(Put(s, x, e))
  {
    More(s, DoRead(x, order), Put(s, x, e));
  }

  /** A member reads an announcement of the creator's. */
  lemma HearsOne(s: State, x: Id, r: Roster, r': Roster, rest: seq<Event>, behind: bool)
    requires Reaches(s) && x in s.live && s.live[x] == Member(1, r, [Announce(1, r', 0)] + rest, behind)
    ensures Reaches(Put(s, x, Member(1, r', rest, false)))
  {
    assert s.live[x].inbox[1..] == rest;
    ReadsOne(s, x, [], Member(1, r', rest, false));
  }

  lemma PutTwice(s: State, x: Id, e: End, e': End)
    ensures Put(Put(s, x, e), x, e') == Put(s, x, e')
  {
    assert s.live[x := e][x := e'] == s.live[x := e'];
  }

  function Settled(inbox: seq<Event>): End {
    Member(1, STALE, inbox, false)
  }

  lemma Hears(s: State, x: Id)
    requires Reaches(s) && x in s.live && s.live[x] == Joined(Said())
    ensures Reaches(Put(s, x, Settled([])))
  {
    var a2, a3, a4 := Announce(1, TWO, 0), Announce(1, THREE, 0), Announce(1, STALE, 0);
    var e2, e3, e4 := Member(1, TWO, [a3, a4], false), Member(1, THREE, [a4], false), Settled([]);
    assert Said() == [a2] + [a3, a4] && [a3, a4] == [a3] + [a4] && [a4] == [a4] + [];
    HearsOne(s, x, map[], TWO, [a3, a4], true);
    PutTwice(s, x, e2, e3);
    HearsOne(Put(s, x, e2), x, TWO, THREE, [a4], false);
    PutTwice(s, x, e3, e4);
    HearsOne(Put(s, x, e3), x, THREE, STALE, [], false);
  }

  lemma PutThree(c: End, d: End, e: End)
    ensures Put(Put(Put(Full(c, d), 2, e), 3, e), 4, e) == Full(c, e)
  {
    assert Put(Put(Put(Full(c, d), 2, e), 3, e), 4, e).live == Full(c, e).live;
  }

  lemma AllSettled()
    ensures Reaches(Full(Creator(STALE, [], []), Settled([])))
  {
    Announcements();
    var s, e := Full(Creator(STALE, [], []), Joined(Said())), Settled([]);
    Hears(s, 2);
    Hears(Put(s, 2, e), 3);
    Hears(Put(Put(s, 2, e), 3, e), 4);
    PutThree(Creator(STALE, [], []), Joined(Said()), e);
  }

  // ----- The creator leaves and 2 takes over -----

  lemma ThreeHear(e: End, c: End, f: Event)
    ensures Tell(Three(e)[1 := c] - {1}, Post(true, {}, f)) == Three(Got(e, f))
  {
  }

  lemma CreatorGoes()
    ensures Reaches(State(Three(Settled([Left(1)])), 5, 1))
  {
    AllSettled();
    var c := Creator(STALE, [], []);
    ThreeHear(Settled([]), c, Left(1));
    assert [] + [Left(1)] == [Left(1)];
    More(Full(c, Settled([])), DoLeave(1), State(Three(Settled([Left(1)])), 5, 1));
  }

  lemma ElectsLeast(c: Roster, p: Id) returns (order: seq<Id>)
    requires 0 !in c && p in c && MemberTier(c[p]) && forall y :: y in c && MemberTier(c[y]) ==> p <= y
    ensures OrderOf(order, c) && Elected(order, c) == p
  {
    order := OrderExists(c.Keys);
    ElectedPick(order, c);
    assert p in Tier(c);
    PicksOne(c, Elected(order, c), p);
  }

  /** The heir 2, with what it has sent, and 3 and 4 in one and the same state. */
  function Heir(outbox: seq<Post>): End {
    End(2, ROLE_HOST, PRUNED, {0, 1}, 1, [], outbox, false)
  }

  function Trio(heir: End, e: End): State {
    State(map[2 := heir, 3 := e, 4 := e], 5, 2)
  }

  const NEWS := Announce(2, PRUNED, 1)

  lemma HeirReads(order: seq<Id>)
    requires Elected(order, STALE - {1}) == 2
    ensures Reads(Settled([Left(1)]), 2, order, 1) == Heir([Post(true, {}, NEWS)])
  {
    assert Settled([Left(1)]).inbox[1..] == [];
    assert (STALE - {1})[2 := ROLE_HOST] == PRUNED;
    assert {0} + {1} == {0, 1};
    assert [] + [Post(true, {}, NEWS)] == [Post(true, {}, NEWS)];
  }

  lemma HeirTakesOver()
    ensures Reaches(Trio(Heir([Post(true, {}, NEWS)]), Settled([Left(1)])))
  {
    CreatorGoes();
    var e := Settled([Left(1)]);
    var heir := Heir([Post(true, {}, NEWS)]);
    var order := ElectsLeast(STALE - {1}, 2);
    HeirReads(order);
    assert Three(e)[2 := heir] == Trio(heir, e).live;
    More(State(Three(e), 5, 1), DoRead(2, order), Trio(heir, e));
  }

  /** The heir's first message is routed. */
  lemma Routes(p: Post, e: End, d: End)
    requires Reaches(Trio(Heir([p]), e)) && d == Got(e, p.f) && (p.all || (3 in p.to && 4 in p.to))
    ensures Reaches(Trio(Heir([]), d))
  {
    assert [p][1..] == [];
    assert Tell(Trio(Heir([p]), e).live - {2}, p)[2 := Heir([])] == Trio(Heir([]), d).live;
    More(Trio(Heir([p]), e), DoRoute(2), Trio(Heir([]), d));
  }

  lemma NewsArrives()
    ensures Reaches(Trio(Heir([]), Settled([Left(1), NEWS])))
  {
    HeirTakesOver();
    assert [Left(1)] + [NEWS] == [Left(1), NEWS];
    Routes(Post(true, {}, NEWS), Settled([Left(1)]), Settled([Left(1), NEWS]));
  }

  /** It follows the heir but cannot open what the heir announces. */
  lemma Deafened(s: State, x: Id)
    requires Reaches(s) && x in s.live && x > 2 && s.live[x] == Settled([Left(1), NEWS])
    ensures Reaches(Put(s, x, Member(2, STALE, [], true)))
  {
    var order := ElectsLeast(STALE - {1}, 2);
    var e1, e2 := Member(2, STALE, [NEWS], true), Member(2, STALE, [], true);
    assert s.live[x].inbox[1..] == [NEWS] && [NEWS][1..] == [];
    ReadsOne(s, x, order, e1);
    PutTwice(s, x, e1, e2);
    ReadsOne(Put(s, x, e1), x, [], e2);
  }

  lemma PutBoth(h: End, d: End, e: End)
    ensures Put(Put(Trio(h, d), 3, e), 4, e) == Trio(h, e)
  {
    assert Put(Put(Trio(h, d), 3, e), 4, e).live == Trio(h, e).live;
  }

  lemma BothDeafened()
    ensures Reaches(Trio(Heir([]), Member(2, STALE, [], true)))
  {
    NewsArrives();
    var s, e := Trio(Heir([]), Settled([Left(1), NEWS])), Member(2, STALE, [], true);
    Deafened(s, 3);
    Deafened(Put(s, 3, e), 4);
    PutBoth(Heir([]), Settled([Left(1), NEWS]), e);
  }

  // ----- Both fetch the new key, and 2 leaves -----

  /** A survivor with the heir's key that still has the roster of the creator's days. */
  function Fetched(host: Id, inbox: seq<Event>): End {
    End(host, ROLE_MEMBER, STALE, {0, 1}, 1, inbox, [], true)
  }

  lemma Granted()
    ensures Reaches(Trio(Heir([]), Member(2, STALE, [Key(1)], true)))
  {
    BothDeafened();
    var e, p := Member(2, STALE, [], true), Post(false, {3, 4}, Key(1));
    assert [] + [p] == [p] && [] + [Key(1)] == [Key(1)];
    assert Trio(Heir([]), e).live[2 := Heir([p])] == Trio(Heir([p]), e).live;
    More(Trio(Heir([]), e), DoGrant(2, {3, 4}), Trio(Heir([p]), e));
    Routes(p, e, Member(2, STALE, [Key(1)], true));
  }

  lemma TakesKey(s: State, x: Id)
    requires Reaches(s) && x in s.live && s.live[x] == Member(2, STALE, [Key(1)], true)
    ensures Reaches(Put(s, x, Fetched(2, [])))
  {
    assert [Key(1)][1..] == [] && {0} + {1} == {0, 1};
    ReadsOne(s, x, [], Fetched(2, []));
  }

  lemma BothFetched()
    ensures Reaches(Trio(Heir([]), Fetched(2, [])))
  {
    Granted();
    var d := Member(2, STALE, [Key(1)], true);
    var s := Trio(Heir([]), d);
    TakesKey(s, 3);
    TakesKey(Put(s, 3, Fetched(2, [])), 4);
    PutBoth(Heir([]), d, Fetched(2, []));
  }

  function Pair(e: End): State {
    State(map[3 := e, 4 := e], 5, 2)
  }

  lemma PairHears(e: End, c: End, f: Event)
    ensures Tell(Trio(c, e).live - {2}, Post(true, {}, f)) == Pair(Got(e, f)).live
  {
  }

  lemma HeirGoes()
    ensures Reaches(Pair(Fetched(2, [Left(2)])))
  {
    BothFetched();
    PairHears(Fetched(2, []), Heir([]), Left(2));
    assert [] + [Left(2)] == [Left(2)];
    More(Trio(Heir([]), Fetched(2, [])), DoLeave(2), Pair(Fetched(2, [Left(2)])));
  }

  // ----- The survivors pick the creator -----

  lemma Elects(s: State, x: Id)
    requires Reaches(s) && x in s.live && x > 2 && s.live[x] == Fetched(2, [Left(2)])
    ensures Reaches(Put(s, x, Fetched(1, [])))
  {
    StalePick();
    var order := OrderExists((STALE - {2}).Keys);
    ElectedPick(order, STALE - {2});
    PicksOne(STALE - {2}, Elected(order, STALE - {2}), 1);
    assert [Left(2)][1..] == [];
    ReadsOne(s, x, order, Fetched(1, []));
  }

  const STRANDED := Pair(Fetched(1, []))

  /** Whoever is left of the two survivors waits for the departed creator. */
  ghost predicate WaitsForOne(s: State) {
    s.live.Keys <= {3, 4} && forall x :: x in s.live ==> Orphan(s, x) && s.live[x].hostId == 1
  }

  lemma StrandedForever(ss: seq<State>, steps: seq<Step>, i: nat, j: nat)
    requires Run(ss, steps) && i <= j < |ss| && ss[i] == STRANDED
    ensures WaitsForOne(ss[j])
  {
    NoHostForever(ss, steps, i, j);
    forall x | x in ss[j].live ensures ss[j].live[x].hostId == 1 { OrphanForever(ss, steps, i, j, x); }
  }

  /** After two migrations the survivors 3 and 4, who have read everything and fetched the second host's
      key, wait for the departed creator, and no step of any longer run changes that: no election, no
      key and no newcomer ever again. */
  lemma StaleRosterStrands()
    ensures Reaches(STRANDED)
    ensures forall ss: seq<State>, steps, i: nat, j: nat {:trigger Run(ss, steps), ss[i], ss[j]} ::
      Run(ss, steps) && i <= j < |ss| && ss[i] == STRANDED ==> WaitsForOne(ss[j])
  {
    HeirGoes();
    var d, e := Fetched(2, [Left(2)]), Fetched(1, []);
    Elects(Pair(d), 3);
    Elects(Put(Pair(d), 3, e), 4);
    assert Put(Put(Pair(d), 3, e), 4, e).live == STRANDED.live;
    forall ss: seq<State>, steps, i: nat, j: nat | Run(ss, steps) && i <= j < |ss| && ss[i] == STRANDED
      ensures WaitsForOne(ss[j])
    {
      StrandedForever(ss, steps, i, j);
    }
  }
}
