/** Throttling connection attempts per address, with a table of bounded size. Times and token counts
    are reals; the token bucket is that of the rate package the relay uses. */
module LimiterSpec {

  const CAP: nat := 16384
  const IDLE_TTL: real := 120.0

  /** `limit` tokens a second, up to `burst`. */
  datatype Rate = Rate(limit: real, burst: nat)

  datatype Bucket = Bucket(tokens: real, last: real)

  datatype Entry = Entry(bucket: Bucket, seen: real)

  type Table = map<string, Entry>
  type Buckets = map<string, Bucket>

  function Least(a: real, b: real): real {
    if a <= b then a else b
  }

  /** What the bucket holds at `t`. */
  function Level(p: Rate, b: Bucket, t: real): real {
    Least(p.burst as real, b.tokens + (t - b.last) * p.limit)
  }

  function Full(p: Rate, t: real): Bucket {
    Bucket(p.burst as real, t)
  }

  predicate Allowed(p: Rate, b: Bucket, t: real) {
    Level(p, b, t) >= 1.0
  }

  function Taken(p: Rate, b: Bucket, t: real): Bucket {
    if Allowed(p, b, t) then Bucket(Level(p, b, t) - 1.0, t) else b
  }

  // ----- The limiter that never forgets -----

  function Known(p: Rate, u: Buckets, ip: string, t: real): Bucket {
    if ip in u then u[ip] else Full(p, t)
  }

  function Unbounded(p: Rate, u: Buckets, ip: string, t: real): Buckets {
    u[ip := Taken(p, Known(p, u, ip, t), t)]
  }

  // ----- The bounded table -----

  predicate Stale(e: Entry, now: real) {
    now - e.seen >= IDLE_TTL
  }

  function StaleKeys(m: Table, now: real): set<string> {
    set k | k in m && Stale(m[k], now)
  }

  /** What the scan of a full table may leave: all stale entries go; with none stale, the entry that
      was seen least recently. Only with the empty address in the table may it be another entry,
      or none. */
  ghost predicate Evicted(m: Table, now: real, m': Table) {
    if StaleKeys(m, now) != {} then m' == m - StaleKeys(m, now)
    else
      || (exists k :: k in m && m' == m - {k} && ("" !in m ==> Oldest(m, k)))
      || (m' == m && ("" !in m ==> m == map[]))
  }

  ghost predicate Oldest(m: Table, k: string) {
    k in m && forall j :: j in m ==> m[k].seen <= m[j].seen
  }

  /** The table a request meets, once room has been made for it. */
  ghost predicate Makes(m: Table, ip: string, now: real, m': Table) {
    if ip in m || |m| < CAP then m' == m else Evicted(m, now, m')
  }

  function Entered(p: Rate, m: Table, ip: string, t: real): Table {
    var b := if ip in m then m[ip].bucket else Full(p, t);
    m[ip := Entry(Taken(p, b, t), t)]
  }

  predicate Grants(p: Rate, m: Table, ip: string, t: real) {
    Allowed(p, if ip in m then m[ip].bucket else Full(p, t), t)
  }

  /** Serving a request leaves every other entry as it is, unless a newcomer meets a full table; and then
      nobody who is not stale loses its entry while somebody stale is there. */
  lemma ServingKeepsOthers(p: Rate, m: Table, ip: string, now: real, made: Table, k: string)
    requires Makes(m, ip, now, made) && k in m && k != ip
    ensures k in Entered(p, made, ip, now) ==> Entered(p, made, ip, now)[k] == m[k]
    ensures k !in Entered(p, made, ip, now) ==> ip !in m && |m| >= CAP && (Stale(m[k], now) || forall j :: j in m ==> !Stale(m[j], now))
  {
    if StaleKeys(m, now) == {} {
      forall j | j in m ensures !Stale(m[j], now) { assert j !in StaleKeys(m, now); }
    }
  }

  // ----- Levels over time -----

  predicate RateOk(p: Rate) {
    p.limit >= 0.0 && p.burst as real <= p.limit * IDLE_TTL
  }

  predicate BucketOk(p: Rate, b: Bucket, t: real) {
    0.0 <= b.tokens <= p.burst as real && b.last <= t
  }

  lemma Refilled(p: Rate, b: Bucket, t: real, d: real)
    requires p.limit >= 0.0 && BucketOk(p, b, t) && d >= 0.0
    ensures Level(p, b, t + d) == Least(p.burst as real, Level(p, b, t) + d * p.limit)
    ensures BucketOk(p, b, t + d)
  {
    assert (t + d - b.last) * p.limit == (t - b.last) * p.limit + d * p.limit;
    NonNegative(d, p.limit);
  }

  lemma NonNegative(a: real, b: real)
    requires a >= 0.0 && b >= 0.0
    ensures a * b >= 0.0
  {
  }

  /** An entry idle for the time limit has a full bucket. */
  lemma StaleIsFull(p: Rate, e: Entry, now: real)
    requires RateOk(p) && BucketOk(p, e.bucket, e.seen) && Stale(e, now)
    ensures Level(p, e.bucket, now) == p.burst as real
  {
    var idle := now - e.bucket.last;
    assert idle >= IDLE_TTL;
    NonNegative(idle - IDLE_TTL, p.limit);
    assert (idle - IDLE_TTL) * p.limit == idle * p.limit - p.limit * IDLE_TTL;
  }

  /** With a bucket that takes exactly the time limit to fill, an entry is stale if and only if its bucket is
      surely full, whatever was left in it when it was seen last. */
  lemma StaleExactly(p: Rate, seen: real, now: real)
    requires p.limit > 0.0 && p.burst as real == p.limit * IDLE_TTL && seen <= now
    ensures Stale(Entry(Full(p, seen), seen), now) <==> forall b :: BucketOk(p, b, seen) ==> Level(p, b, now) == p.burst as real
  {
    if Stale(Entry(Full(p, seen), seen), now) {
      forall b | BucketOk(p, b, seen) ensures Level(p, b, now) == p.burst as real { StaleIsFull(p, Entry(b, seen), now); }
    } else {
      var drained := Bucket(0.0, seen);
      Slower(now - seen, p.limit);
      assert BucketOk(p, drained, seen) && Level(p, drained, now) != p.burst as real;
    }
  }

  lemma Slower(idle: real, limit: real)
    requires limit > 0.0 && idle < IDLE_TTL
    ensures idle * limit < limit * IDLE_TTL
  {
  }

  lemma TakenLevel(p: Rate, b: Bucket, c: Bucket, t: real)
    requires p.limit >= 0.0 && BucketOk(p, b, t) && BucketOk(p, c, t) && Level(p, b, t) == Level(p, c, t)
    ensures Allowed(p, b, t) == Allowed(p, c, t)
    ensures Level(p, Taken(p, b, t), t) == Level(p, Taken(p, c, t), t)
    ensures BucketOk(p, Taken(p, b, t), t) && BucketOk(p, Taken(p, c, t), t)
  {
    NonNegative(t - b.last, p.limit);
    NonNegative(t - c.last, p.limit);
  }

  lemma FullLevel(p: Rate, t: real)
    ensures Level(p, Full(p, t), t) == p.burst as real && BucketOk(p, Full(p, t), t)
  {
  }

  // ----- Refinement -----

  ghost predicate Agrees(p: Rate, m: Table, u: Buckets, ip: string, now: real) {
    && (ip in m ==> && BucketOk(p, m[ip].bucket, m[ip].seen) && m[ip].seen <= now
                    && ip in u && Level(p, m[ip].bucket, now) == Level(p, u[ip], now))
    && (ip in u ==> BucketOk(p, u[ip], now))
    && (ip in u && ip !in m ==> Level(p, u[ip], now) == p.burst as real)
  }

  /** The bounded table and the unbounded one hold the same levels, a missing entry being full. */
  ghost predicate Related(p: Rate, m: Table, u: Buckets, now: real) {
    forall ip {:trigger Agrees(p, m, u, ip, now)} :: Agrees(p, m, u, ip, now)
  }

  lemma AgreesLater(p: Rate, m: Table, u: Buckets, ip: string, now: real, now': real)
    requires RateOk(p) && Agrees(p, m, u, ip, now) && now <= now'
    ensures Agrees(p, m, u, ip, now')
  {
    var d := now' - now;
    NonNegative(d, p.limit);
    if ip in u { Refilled(p, u[ip], now, d); }
    if ip in m { Refilled(p, m[ip].bucket, now, d); }
  }

  lemma TimePasses(p: Rate, m: Table, u: Buckets, now: real, now': real)
    requires RateOk(p) && Related(p, m, u, now) && now <= now'
    ensures Related(p, m, u, now')
  {
    forall ip ensures Agrees(p, m, u, ip, now') {
      assert Agrees(p, m, u, ip, now);
      AgreesLater(p, m, u, ip, now, now');
    }
  }

  lemma StaleGo(p: Rate, m: Table, u: Buckets, now: real)
    requires RateOk(p) && Related(p, m, u, now)
    ensures Related(p, m - StaleKeys(m, now), u, now)
  {
    forall ip ensures Agrees(p, m - StaleKeys(m, now), u, ip, now) {
      assert Agrees(p, m, u, ip, now);
      if ip in m && Stale(m[ip], now) { StaleIsFull(p, m[ip], now); }
    }
  }

  lemma RequestAgrees(p: Rate, m: Table, u: Buckets, ip: string, now: real)
    requires RateOk(p) && Related(p, m, u, now)
    ensures Grants(p, m, ip, now) == Allowed(p, Known(p, u, ip, now), now)
    ensures Related(p, Entered(p, m, ip, now), Unbounded(p, u, ip, now), now)
  {
    assert Agrees(p, m, u, ip, now);
    FullLevel(p, now);
    var b := if ip in m then m[ip].bucket else Full(p, now);
    assert BucketOk(p, b, now);
    TakenLevel(p, b, Known(p, u, ip, now), now);
    var m', u' := Entered(p, m, ip, now), Unbounded(p, u, ip, now);
    forall j ensures Agrees(p, m', u', j, now) {
      assert Agrees(p, m, u, j, now);
    }
  }

  datatype Request = Request(ip: string, now: real)

  /** `made[i]` is the table request `i` meets after room has been made, and every scan that had to
      make room found a stale entry. */
  ghost predicate StaleRun(p: Rate, reqs: seq<Request>, ms: seq<Table>, made: seq<Table>, us: seq<Buckets>) {
    && |ms| == |us| == |reqs| + 1 && |made| == |reqs| && ms[0] == map[] && us[0] == map[]
    && (forall i, j :: 0 <= i < j < |reqs| ==> reqs[i].now <= reqs[j].now)
    && (forall i {:trigger Serves(p, reqs, ms, made, us, i)} :: 0 <= i < |reqs| ==> Serves(p, reqs, ms, made, us, i))
  }

  ghost predicate Serves(p: Rate, reqs: seq<Request>, ms: seq<Table>, made: seq<Table>, us: seq<Buckets>, i: nat)
    requires |ms| == |us| == |reqs| + 1 && |made| == |reqs| && i < |reqs|
  {
    var r := reqs[i];
    && Makes(ms[i], r.ip, r.now, made[i])
    && (made[i] == ms[i] || StaleKeys(ms[i], r.now) != {})
    && ms[i + 1] == Entered(p, made[i], r.ip, r.now)
    && us[i + 1] == Unbounded(p, us[i], r.ip, r.now)
  }

  lemma MakesStale(m: Table, ip: string, now: real, m': Table)
    requires Makes(m, ip, now, m') && (m' == m || StaleKeys(m, now) != {})
    ensures m' == m || m' == m - StaleKeys(m, now)
  {
  }

  lemma RelatedMade(p: Rate, m: Table, u: Buckets, r: Request, m': Table)
    requires RateOk(p) && Related(p, m, u, r.now)
    requires Makes(m, r.ip, r.now, m') && (m' == m || StaleKeys(m, r.now) != {})
    ensures Related(p, m', u, r.now)
  {
    MakesStale(m, r.ip, r.now, m');
    StaleGo(p, m, u, r.now);
  }

  lemma RelatedServed(p: Rate, m: Table, u: Buckets, r: Request, later: real)
    requires RateOk(p) && Related(p, m, u, r.now) && r.now <= later
    ensures Related(p, Entered(p, m, r.ip, r.now), Unbounded(p, u, r.ip, r.now), later)
  {
    RequestAgrees(p, m, u, r.ip, r.now);
    TimePasses(p, Entered(p, m, r.ip, r.now), Unbounded(p, u, r.ip, r.now), r.now, later);
  }

  lemma RelatedInit(p: Rate, now: real)
    ensures Related(p, map[], map[], now)
  {
    forall ip ensures Agrees(p, map[], map[], ip, now) { }
  }

  lemma {:induction false} RunRelated(p: Rate, reqs: seq<Request>, ms: seq<Table>, made: seq<Table>, us: seq<Buckets>, i: nat)
    requires RateOk(p) && StaleRun(p, reqs, ms, made, us) && i < |reqs|
    ensures Related(p, made[i], us[i], reqs[i].now)
  {
    if i == 0 {
      RelatedInit(p, reqs[0].now);
    } else {
      RunRelated(p, reqs, ms, made, us, i - 1);
      assert Serves(p, reqs, ms, made, us, i - 1);
      RelatedServed(p, made[i - 1], us[i - 1], reqs[i - 1], reqs[i].now);
    }
    assert Serves(p, reqs, ms, made, us, i);
    RelatedMade(p, ms[i], us[i], reqs[i], made[i]);
  }

  /** While the table can always make room by dropping stale entries, it answers every request of
      every run as a limiter that never forgets would. */
  lemma BoundedRefinesUnbounded(p: Rate, reqs: seq<Request>, ms: seq<Table>, made: seq<Table>, us: seq<Buckets>, i: nat)
    requires RateOk(p) && StaleRun(p, reqs, ms, made, us) && i < |reqs|
    ensures Grants(p, made[i], reqs[i].ip, reqs[i].now) ==
            Allowed(p, Known(p, us[i], reqs[i].ip, reqs[i].now), reqs[i].now)
  {
    RunRelated(p, reqs, ms, made, us, i);
    RequestAgrees(p, made[i], us[i], reqs[i].ip, reqs[i].now);
  }

  // ----- Forgetting one entry -----

  /** What the table answers to requests, with nothing dropped in between. */
  function Decisions(p: Rate, m: Table, reqs: seq<Request>): seq<bool>
    decreases |reqs|
  {
    if reqs == [] then []
    else
      var r := reqs[0];
      [Grants(p, m, r.ip, r.now)] + Decisions(p, Entered(p, m, r.ip, r.now), reqs[1..])
  }

  predicate Ahead(reqs: seq<Request>, now: real) {
    (forall i :: 0 <= i < |reqs| ==> now <= reqs[i].now) && forall i, j :: 0 <= i < j < |reqs| ==> reqs[i].now <= reqs[j].now
  }

  /** The tokens an address has at `t`: a missing entry is full. */
  function Tokens(p: Rate, m: Table, ip: string, t: real): real {
    if ip in m then Level(p, m[ip].bucket, t) else p.burst as real
  }

  ghost predicate TableOk(p: Rate, m: Table, now: real) {
    p.limit >= 0.0 && forall ip :: ip in m ==> BucketOk(p, m[ip].bucket, now)
  }

  /** The two tables give every address the same tokens. */
  ghost predicate Alike(p: Rate, m: Table, n: Table, now: real) {
    && TableOk(p, m, now) && TableOk(p, n, now)
    && forall ip {:trigger Tokens(p, m, ip, now)} :: Tokens(p, m, ip, now) == Tokens(p, n, ip, now)
  }

  lemma TokensLater(p: Rate, m: Table, ip: string, now: real, later: real)
    requires TableOk(p, m, now) && now <= later
    ensures Tokens(p, m, ip, later) == Least(p.burst as real, Tokens(p, m, ip, now) + (later - now) * p.limit)
    ensures ip in m ==> BucketOk(p, m[ip].bucket, later)
  {
    NonNegative(later - now, p.limit);
    if ip in m { Refilled(p, m[ip].bucket, now, later - now); }
  }

  lemma AlikeLater(p: Rate, m: Table, n: Table, now: real, later: real)
    requires Alike(p, m, n, now) && now <= later
    ensures Alike(p, m, n, later)
  {
    forall ip ensures Tokens(p, m, ip, later) == Tokens(p, n, ip, later) {
      TokensLater(p, m, ip, now, later);
      TokensLater(p, n, ip, now, later);
    }
    forall ip | ip in m ensures BucketOk(p, m[ip].bucket, later) { TokensLater(p, m, ip, now, later); }
    forall ip | ip in n ensures BucketOk(p, n[ip].bucket, later) { TokensLater(p, n, ip, now, later); }
  }

  /** What a request leaves its address with: one token less, if there was one. */
  function TokensAfter(p: Rate, m: Table, ip: string, now: real, j: string): real {
    if j == ip && Grants(p, m, ip, now) then Tokens(p, m, j, now) - 1.0 else Tokens(p, m, j, now)
  }

  lemma TakenTokens(p: Rate, b: Bucket, now: real)
    requires p.limit >= 0.0 && BucketOk(p, b, now)
    ensures BucketOk(p, Taken(p, b, now), now)
    ensures Level(p, Taken(p, b, now), now) == Level(p, b, now) - (if Allowed(p, b, now) then 1.0 else 0.0)
  {
    NonNegative(now - b.last, p.limit);
  }

  lemma EnteredTokens(p: Rate, m: Table, ip: string, now: real)
    requires TableOk(p, m, now)
    ensures Grants(p, m, ip, now) == (Tokens(p, m, ip, now) >= 1.0)
    ensures TableOk(p, Entered(p, m, ip, now), now)
    ensures forall j {:trigger TokensAfter(p, m, ip, now, j)} ::
      Tokens(p, Entered(p, m, ip, now), j, now) == TokensAfter(p, m, ip, now, j)
  {
    FullLevel(p, now);
    var b := if ip in m then m[ip].bucket else Full(p, now);
    TakenTokens(p, b, now);
  }

  lemma AlikeServed(p: Rate, m: Table, n: Table, ip: string, now: real)
    requires Alike(p, m, n, now)
    ensures Grants(p, m, ip, now) == Grants(p, n, ip, now)
    ensures Alike(p, Entered(p, m, ip, now), Entered(p, n, ip, now), now)
  {
    EnteredTokens(p, m, ip, now);
    EnteredTokens(p, n, ip, now);
    assert Tokens(p, m, ip, now) == Tokens(p, n, ip, now);
    var m', n' := Entered(p, m, ip, now), Entered(p, n, ip, now);
    forall j ensures Tokens(p, m', j, now) == Tokens(p, n', j, now) {
      assert Tokens(p, m, j, now) == Tokens(p, n, j, now);
      assert TokensAfter(p, m, ip, now, j) == TokensAfter(p, n, ip, now, j);
    }
  }

  lemma {:induction false} AlikeDecides(p: Rate, m: Table, n: Table, now: real, reqs: seq<Request>)
    requires Alike(p, m, n, now) && Ahead(reqs, now)
    ensures Decisions(p, m, reqs) == Decisions(p, n, reqs)
    decreases |reqs|
  {
    if reqs != [] {
      var r := reqs[0];
      AlikeLater(p, m, n, now, r.now);
      AlikeServed(p, m, n, r.ip, r.now);
      AlikeDecides(p, Entered(p, m, r.ip, r.now), Entered(p, n, r.ip, r.now), r.now, reqs[1..]);
    }
  }

  function Again(ip: string, now: real, n: nat): seq<Request> {
    seq(n, _ => Request(ip, now))
  }

  /** Of requests from one address at one moment, as many are granted as it has whole tokens. */
  lemma {:induction false} GrantsWhole(p: Rate, m: Table, ip: string, now: real, n: nat)
    requires TableOk(p, m, now)
    ensures |Decisions(p, m, Again(ip, now, n))| == n
    ensures forall j :: 0 <= j < n ==>
      (Decisions(p, m, Again(ip, now, n))[j] <==> Tokens(p, m, ip, now) >= (j + 1) as real)
    decreases n
  {
    if n > 0 {
      var m' := Entered(p, m, ip, now);
      EnteredTokens(p, m, ip, now);
      assert Tokens(p, m', ip, now) == TokensAfter(p, m, ip, now, ip);
      GrantsWhole(p, m', ip, now, n - 1);
      assert Again(ip, now, n)[1..] == Again(ip, now, n - 1);
      var t := Tokens(p, m, ip, now);
      forall j | 0 <= j < n ensures Decisions(p, m, Again(ip, now, n))[j] <==> t >= (j + 1) as real {
        if j > 0 {
          assert Decisions(p, m, Again(ip, now, n))[j] == Decisions(p, m', Again(ip, now, n - 1))[j - 1];
        }
      }
    }
  }

  /** One request more than the entry has whole tokens tells an entry that is not full from a fresh
      one. */
  lemma ForgettingShows(p: Rate, m: Table, k: string, now: real) returns (reqs: seq<Request>)
    requires TableOk(p, m, now) && k in m && Level(p, m[k].bucket, now) < p.burst as real
    ensures Ahead(reqs, now) && Decisions(p, m, reqs) != Decisions(p, m - {k}, reqs)
  {
    var t := Level(p, m[k].bucket, now);
    LevelBounds(p, m[k].bucket, now);
    var n := WholeBelow(t, p.burst);
    reqs := Again(k, now, n + 1);
    GrantsWhole(p, m, k, now, n + 1);
    GrantsWhole(p, m - {k}, k, now, n + 1);
    assert !Decisions(p, m, reqs)[n] && Decisions(p, m - {k}, reqs)[n];
  }

  lemma LevelBounds(p: Rate, b: Bucket, now: real)
    requires p.limit >= 0.0 && BucketOk(p, b, now)
    ensures 0.0 <= Level(p, b, now) <= p.burst as real
  {
    NonNegative(now - b.last, p.limit);
  }

  lemma {:induction false} WholeBelow(t: real, b: nat) returns (n: nat)
    requires 0.0 <= t < b as real
    ensures n as real <= t < (n + 1) as real && n + 1 <= b
  {
    if t >= (b - 1) as real { n := b - 1; } else { n := WholeBelow(t, b - 1); }
  }

  /** Dropping an entry goes unnoticed, by any requests from then on, if and only if its bucket is
      full. */
  lemma ForgettingExactly(p: Rate, m: Table, k: string, now: real)
    requires TableOk(p, m, now) && k in m
    ensures Level(p, m[k].bucket, now) == p.burst as real <==>
      forall reqs :: Ahead(reqs, now) ==> Decisions(p, m, reqs) == Decisions(p, m - {k}, reqs)
  {
    if Level(p, m[k].bucket, now) == p.burst as real {
      forall reqs | Ahead(reqs, now) ensures Decisions(p, m, reqs) == Decisions(p, m - {k}, reqs) {
        AlikeDecides(p, m, m - {k}, now, reqs);
      }
    } else {
      var reqs := ForgettingShows(p, m, k, now);
    }
  }

  // ----- The scan -----

  /** The scan's running least recently seen entry, with "" for none yet, over the entries that are
      not stale in the order in which they are visited. */
  function Scan(order: seq<string>, m: Table): (k: string)
    requires forall i :: 0 <= i < |order| ==> order[i] in m
    ensures k == "" || k in order
  {
    if order == [] then ""
    else
      var k, best := order[|order| - 1], Scan(order[..|order| - 1], m);
      if best == "" || m[k].seen < m[best].seen then k else best
  }

  ghost predicate OrderOf(order: seq<string>, keys: set<string>) {
    && (forall i, j :: 0 <= i < j < |order| ==> order[i] != order[j])
    && (forall i :: 0 <= i < |order| ==> order[i] in keys)
    && (forall k :: k in keys ==> k in order)
  }

  lemma {:induction false} ScanIsOldest(order: seq<string>, m: Table)
    requires (forall i :: 0 <= i < |order| ==> order[i] in m) && order != [] && "" !in order
    ensures Scan(order, m) in order && forall j :: j in order ==> m[Scan(order, m)].seen <= m[j].seen
    decreases |order|
  {
    var n := |order| - 1;
    assert order == order[..n] + [order[n]];
    if n > 0 { ScanIsOldest(order[..n], m); }
  }

  /** What the scan leaves of the table. */
  function Swept(m: Table, now: real, order: seq<string>): Table
    requires forall i :: 0 <= i < |order| ==> order[i] in m
  {
    if StaleKeys(m, now) != {} then m - StaleKeys(m, now)
    else if Scan(order, m) != "" then m - {Scan(order, m)} else m
  }

  lemma SweptIsEvicted(m: Table, now: real, order: seq<string>)
    requires OrderOf(order, m.Keys - StaleKeys(m, now))
    ensures Evicted(m, now, Swept(m, now, order))
  {
    if StaleKeys(m, now) == {} && "" !in m {
      assert forall k :: k in order <==> k in m;
      if order == [] {
        assert m.Keys == {};
      } else {
        ScanIsOldest(order, m);
        assert Oldest(m, Scan(order, m));
      }
    }
  }

  lemma Smaller(m: Table, ks: set<string>)
    requires exists k :: k in ks && k in m
    ensures |m - ks| < |m|
  {
    var k :| k in ks && k in m;
    assert (m - ks).Keys == m.Keys - ks;
    assert |(m - ks).Keys| == |m - ks| && |m.Keys| == |m|;
    SubsetSize((m - ks).Keys, m.Keys - {k});
  }

  lemma {:induction false} SubsetSize(a: set<string>, b: set<string>)
    requires a <= b
    ensures |a| <= |b|
    decreases |a|
  {
    if a != {} {
      var k :| k in a;
      SubsetSize(a - {k}, b - {k});
    }
  }

  /** The scan comes out empty-handed exactly when it visits the empty address last, having seen it
      less recently than everything else. */
  lemma {:induction false} ScanFails(order: seq<string>, m: Table)
    requires (forall i :: 0 <= i < |order| ==> order[i] in m) && order != []
    requires forall i, j :: 0 <= i < j < |order| ==> order[i] != order[j]
    ensures Scan(order, m) == "" <==>
      order[|order| - 1] == "" && forall i :: 0 <= i < |order| - 1 ==> m[""].seen < m[order[i]].seen
  {
    var n := |order| - 1;
    var rest := order[..n];
    if order[n] == "" && rest != [] {
      assert "" !in rest;
      ScanIsOldest(rest, m);
      var best := Scan(rest, m);
      forall i | 0 <= i < n && m[""].seen < m[best].seen ensures m[""].seen < m[order[i]].seen {
        assert rest[i] in rest;
      }
    }
  }

  /** Whether a full table gets smaller whatever the order of the scan: it does unless nothing is
      stale and the empty address is the one seen least recently. */
  predicate RoomCertain(m: Table, now: real) {
    StaleKeys(m, now) != {} || "" !in m || exists j :: j in m && j != "" && m[j].seen <= m[""].seen
  }

  lemma SweepMakesRoom(m: Table, now: real, order: seq<string>)
    requires m != map[] && RoomCertain(m, now) && OrderOf(order, m.Keys - StaleKeys(m, now))
    ensures |Swept(m, now, order)| < |m|
  {
    if StaleKeys(m, now) != {} {
      var k :| k in StaleKeys(m, now);
      Smaller(m, StaleKeys(m, now));
    } else {
      assert order != [] by { var k :| k in m; assert k in order; }
      ScanFails(order, m);
      if "" in m {
        var j :| j in m && j != "" && m[j].seen <= m[""].seen;
        assert j in order;
        var i :| 0 <= i < |order| && order[i] == j;
      } else {
        assert order[|order| - 1] in order;
      }
      Smaller(m, {Scan(order, m)});
    }
  }

  lemma {:induction false} OrderExists(keys: set<string>) returns (order: seq<string>)
    ensures OrderOf(order, keys)
    decreases |keys|
  {
    if keys == {} {
      order := [];
    } else {
      var k :| k in keys;
      var rest := OrderExists(keys - {k});
      order := rest + [k];
    }
  }

  lemma SweepMayFail(m: Table, now: real) returns (order: seq<string>)
    requires !RoomCertain(m, now)
    ensures OrderOf(order, m.Keys - StaleKeys(m, now)) && Swept(m, now, order) == m
  {
    var rest := OrderExists(m.Keys - {""});
    order := rest + [""];
    assert order[..|order| - 1] == rest;
    forall i | 0 <= i < |rest| ensures m[""].seen < m[order[i]].seen { assert rest[i] in rest; }
    ScanFails(order, m);
  }

  /** The table makes room in every order of iteration exactly when that is so. */
  lemma RoomExactly(m: Table, now: real)
    requires m != map[]
    ensures RoomCertain(m, now) <==>
      forall order :: OrderOf(order, m.Keys - StaleKeys(m, now)) ==> |Swept(m, now, order)| < |m|
  {
    if RoomCertain(m, now) {
      forall order | OrderOf(order, m.Keys - StaleKeys(m, now)) ensures |Swept(m, now, order)| < |m| {
        SweepMakesRoom(m, now, order);
      }
    } else {
      var order := SweepMayFail(m, now);
    }
  }

  lemma Grown(m: Table, ip: string, e: Entry)
    ensures |m[ip := e]| == |m| + if ip in m then 0 else 1
  {
    var m' := m[ip := e];
    assert m'.Keys == m.Keys + {ip};
    assert |m'.Keys| == |m'| && |m.Keys| == |m|;
  }

  // ----- The cap -----

  /** Any requests at all, at any times. */
  ghost predicate TableRun(p: Rate, reqs: seq<Request>, ms: seq<Table>, made: seq<Table>) {
    && |ms| == |reqs| + 1 && |made| == |reqs| && ms[0] == map[]
    && forall i {:trigger Holds(p, reqs, ms, made, i)} :: 0 <= i < |reqs| ==> Holds(p, reqs, ms, made, i)
  }

  ghost predicate Holds(p: Rate, reqs: seq<Request>, ms: seq<Table>, made: seq<Table>, i: nat)
    requires |ms| == |reqs| + 1 && |made| == |reqs| && i < |reqs|
  {
    Makes(ms[i], reqs[i].ip, reqs[i].now, made[i]) && ms[i + 1] == Entered(p, made[i], reqs[i].ip, reqs[i].now)
  }

  lemma MakesRoom(m: Table, ip: string, now: real, m': Table)
    requires Makes(m, ip, now, m') && |m| <= CAP && "" !in m
    ensures "" !in m' && (ip in m' || |m'| < CAP) && |m'| <= CAP
  {
    if ip !in m && |m| >= CAP {
      if StaleKeys(m, now) != {} {
        var k :| k in StaleKeys(m, now);
        Smaller(m, StaleKeys(m, now));
      } else {
        var k :| k in m && m' == m - {k};
        Smaller(m, {k});
      }
    }
  }

  lemma ServedWithinCap(p: Rate, m: Table, ip: string, now: real, m': Table)
    requires Makes(m, ip, now, m') && |m| <= CAP && "" !in m && ip != ""
    ensures |Entered(p, m', ip, now)| <= CAP && "" !in Entered(p, m', ip, now)
  {
    MakesRoom(m, ip, now, m');
    Grown(m', ip, Entered(p, m', ip, now)[ip]);
  }

  lemma HeldWithinCap(p: Rate, reqs: seq<Request>, ms: seq<Table>, made: seq<Table>, i: nat)
    requires TableRun(p, reqs, ms, made) && i < |reqs| && reqs[i].ip != ""
    requires |ms[i]| <= CAP && "" !in ms[i]
    ensures |ms[i + 1]| <= CAP && "" !in ms[i + 1]
  {
    assert Holds(p, reqs, ms, made, i);
    ServedWithinCap(p, ms[i], reqs[i].ip, reqs[i].now, made[i]);
  }

  /** Over every run of non-empty addresses the table never outgrows its cap, whatever the clock and
      the order of the scans, also when it has to drop entries that are not stale. */
  lemma {:induction false} NeverOverCap(p: Rate, reqs: seq<Request>, ms: seq<Table>, made: seq<Table>, i: nat)
    requires TableRun(p, reqs, ms, made) && i < |ms|
    requires forall j :: 0 <= j < |reqs| ==> reqs[j].ip != ""
    ensures |ms[i]| <= CAP && "" !in ms[i]
  {
    if i > 0 {
      NeverOverCap(p, reqs, ms, made, i - 1);
      HeldWithinCap(p, reqs, ms, made, i - 1);
    }
  }

  // ----- A run in which the fallback forgives -----

  /** The relay's own rate: five a minute with a burst of five. */
  const RELAY_RATE := Rate(1.0 / 12.0, 5)

  /** Distinct addresses, told apart by their length. */
  function Address(i: nat): string {
    seq(i + 1, _ => 'x')
  }

  /** Address 0 makes five requests at time 0; addresses 1 to `n`, and then 0 again, one each at time
      1. */
  function AddressOf(n: nat, i: nat): string {
    if i < 5 || i == n + 5 then Address(0) else Address(i - 4)
  }

  function RequestAt(n: nat, i: nat): Request {
    Request(AddressOf(n, i), if i < 5 then 0.0 else 1.0)
  }

  /** The tables of that run: the request of address `n` evicts 0, and the last one evicts 1. */
  function TableAt(n: nat, i: nat): Table
    decreases i, 0
  {
    if i == 0 then map[]
    else Entered(RELAY_RATE, MadeAt(n, i - 1), RequestAt(n, i - 1).ip, RequestAt(n, i - 1).now)
  }

  function MadeAt(n: nat, i: nat): Table
    decreases i, 1
  {
    if i == n + 4 then TableAt(n, i) - {Address(0)}
    else if i == n + 5 then TableAt(n, i) - {Address(1)}
    else TableAt(n, i)
  }

  function UnboundedAt(n: nat, i: nat): Buckets {
    if i == 0 then map[] else Unbounded(RELAY_RATE, UnboundedAt(n, i - 1), RequestAt(n, i - 1).ip, RequestAt(n, i - 1).now)
  }

  lemma AddressesDiffer(i: nat, j: nat)
    requires i != j
    ensures Address(i) != Address(j)
  {
    assert |Address(i)| != |Address(j)|;
  }

  lemma {:induction false} BurstUsed(n: nat, i: nat)
    requires n >= 2 && i <= 5
    ensures var m, u, ip := TableAt(n, i), UnboundedAt(n, i), Address(0);
      if i == 0 then m == map[] && u == map[]
      else m == map[ip := Entry(Bucket((5 - i) as real, 0.0), 0.0)] && u == map[ip := m[ip].bucket]
  {
    if i > 0 { BurstUsed(n, i - 1); }
  }

  /** After address `j`: the table holds exactly the addresses up to `j`, the first one seen before all
      others, which are not stale. */
  ghost predicate FilledTo(m: Table, j: nat) {
    && |m| == j + 1
    && (forall l :: 0 <= l <= j ==> Address(l) in m)
    && (forall l :: l > j ==> Address(l) !in m)
    && (forall k :: k in m ==> m[k].seen == if k == Address(0) then 0.0 else 1.0)
  }

  lemma FirstFilled(m: Table)
    requires m == map[Address(0) := Entry(Bucket(0.0, 0.0), 0.0)]
    ensures FilledTo(m, 0)
  {
    forall l: nat | l > 0 ensures Address(l) !in m { AddressesDiffer(l, 0); }
  }

  lemma FilledMore(m: Table, j: nat, e: Entry)
    requires FilledTo(m, j) && e.seen == 1.0
    ensures FilledTo(m[Address(j + 1) := e], j + 1)
  {
    var m' := m[Address(j + 1) := e];
    Grown(m, Address(j + 1), e);
    AddressesDiffer(j + 1, 0);
    forall l: nat | l > j + 1 ensures Address(l) !in m' { AddressesDiffer(l, j + 1); }
  }

  /** Serving address `j` while there is room. */
  lemma FillStep(n: nat, j: nat)
    requires 0 < j < n
    ensures TableAt(n, 5 + j) == Entered(RELAY_RATE, TableAt(n, 4 + j), Address(j), 1.0)
    ensures UnboundedAt(n, 5 + j) == Unbounded(RELAY_RATE, UnboundedAt(n, 4 + j), Address(j), 1.0)
  {
    assert RequestAt(n, 4 + j) == Request(Address(j), 1.0);
    assert MadeAt(n, 4 + j) == TableAt(n, 4 + j);
  }

  lemma {:induction false} FillsUp(n: nat, j: nat)
    requires n >= 2 && j < n
    ensures FilledTo(TableAt(n, 5 + j), j)
  {
    if j == 0 {
      BurstUsed(n, 5);
      FirstFilled(TableAt(n, 5));
    } else {
      FillsUp(n, j - 1);
      FillStep(n, j);
      FilledMore(TableAt(n, 4 + j), j - 1, TableAt(n, 5 + j)[Address(j)]);
    }
  }

  /** The never-forgetting limiter keeps the first address's empty bucket. */
  lemma {:induction false} FirstStays(n: nat, j: nat)
    requires n >= 2 && j < n
    ensures Address(0) in UnboundedAt(n, 5 + j) && UnboundedAt(n, 5 + j)[Address(0)] == Bucket(0.0, 0.0)
  {
    if j == 0 {
      BurstUsed(n, 5);
    } else {
      FirstStays(n, j - 1);
      FillStep(n, j);
      AddressesDiffer(j, 0);
    }
  }

  lemma MakesAt(n: nat, i: nat)
    requires n == CAP && i < n + 4
    ensures Makes(TableAt(n, i), RequestAt(n, i).ip, RequestAt(n, i).now, MadeAt(n, i))
  {
    if i <= 5 { BurstUsed(n, i); } else { FillsUp(n, i - 5); }
  }

  /** The table is full, nothing is stale, and the first address is the least recently seen. */
  lemma EvictsFirst(n: nat)
    requires n == CAP
    ensures var m := TableAt(n, n + 4);
      |m| == CAP && Address(n) !in m && Address(0) in m && Address(1) in m && "" !in m
    ensures Makes(TableAt(n, n + 4), Address(n), 1.0, MadeAt(n, n + 4))
  {
    FillsUp(n, n - 1);
    var m := TableAt(n, n + 4);
    assert 5 + (n - 1) == n + 4;
    NoEmpty(n, n + 4);
    forall k | k in m ensures !Stale(m[k], 1.0) { }
    assert StaleKeys(m, 1.0) == {};
    assert Oldest(m, Address(0));
  }

  lemma {:induction false} NoEmpty(n: nat, i: nat)
    ensures "" !in TableAt(n, i)
  {
    if i > 0 {
      NoEmpty(n, i - 1);
      assert |RequestAt(n, i - 1).ip| > 0;
    }
  }

  /** The table is full again, and the first address is not in it. */
  lemma EvictsAgain(n: nat)
    requires n == CAP
    ensures Makes(TableAt(n, n + 5), Address(0), 1.0, MadeAt(n, n + 5)) && Address(0) !in MadeAt(n, n + 5)
  {
    EvictsFirst(n);
    FillsUp(n, n - 1);
    assert 5 + (n - 1) == n + 4;
    var m, w, t := TableAt(n, n + 4), MadeAt(n, n + 4), TableAt(n, n + 5);
    assert RequestAt(n, n + 4) == Request(Address(n), 1.0);
    AddressesDiffer(0, n);
    AddressesDiffer(0, 1);
    AddressesDiffer(1, n);
    assert w.Keys == m.Keys - {Address(0)} && |w.Keys| == |w| && |m.Keys| == |m|;
    Grown(w, Address(n), t[Address(n)]);
    forall k | k in t ensures t[k].seen == 1.0 { }
    assert StaleKeys(t, 1.0) == {};
    assert Oldest(t, Address(1));
    NoEmpty(n, n + 5);
  }

  /** A run at the relay's own rate: an address uses its burst up, as many others arrive as the table
      has room for and one more, and a second after its last request the address is let in again.
      A limiter that never forgets would refuse it. */
  lemma FallbackForgives() returns (reqs: seq<Request>, ms: seq<Table>, made: seq<Table>, u: Buckets)
    ensures RateOk(RELAY_RATE) && TableRun(RELAY_RATE, reqs, ms, made) && |reqs| > 5
    ensures forall i, j :: 0 <= i < j < |reqs| ==> reqs[i].now <= reqs[j].now
    ensures var last := |reqs| - 1;
      && (forall i :: 0 <= i < 5 ==> reqs[i].ip == reqs[last].ip)
      && u == AfterAll(RELAY_RATE, reqs[..last])
      && Grants(RELAY_RATE, made[last], reqs[last].ip, reqs[last].now)
      && !Allowed(RELAY_RATE, Known(RELAY_RATE, u, reqs[last].ip, reqs[last].now), reqs[last].now)
  {
    var n: nat := CAP;
    reqs, ms, made, u := ForgivingRun(n);
  }

  /** The never-forgetting limiter after a sequence of requests. */
  function AfterAll(p: Rate, reqs: seq<Request>): Buckets {
    if reqs == [] then map[]
    else
      var r := reqs[|reqs| - 1];
      Unbounded(p, AfterAll(p, reqs[..|reqs| - 1]), r.ip, r.now)
  }

  function RequestsTo(n: nat, i: nat): seq<Request> {
    seq(i, j requires 0 <= j < i => RequestAt(n, j))
  }

  lemma {:induction false} UnboundedAfter(n: nat, i: nat)
    ensures AfterAll(RELAY_RATE, RequestsTo(n, i)) == UnboundedAt(n, i)
  {
    if i > 0 {
      UnboundedAfter(n, i - 1);
      assert RequestsTo(n, i)[..i - 1] == RequestsTo(n, i - 1);
    }
  }

  lemma HoldsAt(n: nat, i: nat)
    requires n == CAP && i < n + 6
    ensures Makes(TableAt(n, i), RequestAt(n, i).ip, RequestAt(n, i).now, MadeAt(n, i))
  {
    if i < n + 4 { MakesAt(n, i); } else if i == n + 4 { EvictsFirst(n); } else { EvictsAgain(n); }
  }

  lemma ForgivenLast(n: nat)
    requires n == CAP
    ensures Grants(RELAY_RATE, MadeAt(n, n + 5), Address(0), 1.0)
    ensures !Allowed(RELAY_RATE, Known(RELAY_RATE, UnboundedAt(n, n + 5), Address(0), 1.0), 1.0)
  {
    EvictsAgain(n);
    FirstStays(n, n - 1);
    assert 5 + (n - 1) == n + 4;
    AddressesDiffer(0, n);
    assert RequestAt(n, n + 4) == Request(Address(n), 1.0);
    assert UnboundedAt(n, n + 5)[Address(0)] == Bucket(0.0, 0.0);
  }

  lemma WholeRun(n: nat) returns (reqs: seq<Request>, ms: seq<Table>, made: seq<Table>)
    requires n == CAP
    ensures TableRun(RELAY_RATE, reqs, ms, made) && |reqs| == n + 6 && reqs == RequestsTo(n, n + 6)
    ensures made[n + 5] == MadeAt(n, n + 5)
  {
    reqs := RequestsTo(n, n + 6);
    ms := seq(n + 7, i requires 0 <= i < n + 7 => TableAt(n, i));
    made := seq(n + 6, i requires 0 <= i < n + 6 => MadeAt(n, i));
    forall i | 0 <= i < |reqs| ensures Holds(RELAY_RATE, reqs, ms, made, i) { HoldsAt(n, i); }
  }

  lemma ForgivingRun(n: nat) returns (reqs: seq<Request>, ms: seq<Table>, made: seq<Table>, u: Buckets)
    requires n == CAP
    ensures RateOk(RELAY_RATE) && TableRun(RELAY_RATE, reqs, ms, made) && |reqs| == n + 6 && reqs == RequestsTo(n, n + 6)
    ensures u == AfterAll(RELAY_RATE, reqs[..n + 5])
    ensures Grants(RELAY_RATE, made[n + 5], reqs[n + 5].ip, reqs[n + 5].now)
    ensures !Allowed(RELAY_RATE, Known(RELAY_RATE, u, reqs[n + 5].ip, reqs[n + 5].now), reqs[n + 5].now)
  {
    u := UnboundedAt(n, n + 5);
    reqs, ms, made := WholeRun(n);
    ForgivenLast(n);
    UnboundedAfter(n, n + 5);
    assert reqs[..n + 5] == RequestsTo(n, n + 5);
  }
}

module Limiter {
  import opened LimiterSpec

  class IpLimiter {
    const p: Rate
    var m: Table

    constructor (limit: real, burst: nat)
      ensures p == Rate(limit, burst) && m == map[]
    {
      p, m := Rate(limit, burst), map[];
    }

    /** Visits every entry once, in any order, deleting the stale ones as it goes; if there were none,
        it deletes the least recently seen. */
    method EvictLocked(now: real) returns (ghost order: seq<string>)
      modifies this`m
      ensures OrderOf(order, old(m).Keys - StaleKeys(old(m), now)) && m == Swept(old(m), now, order)
    {
      ghost var before := m;
      var todo, oldestKey, oldestSeen, freed := m.Keys, "", 0.0, false;
      order := [];
      while todo != {}
        invariant todo <= before.Keys
        invariant VisitedOrder(order, before, todo, now) && Remains(m, before, todo, now)
        invariant freed <==> SomeStale(before, todo, now)
        invariant oldestKey == Scan(order, before) && (oldestKey != "" ==> oldestSeen == before[oldestKey].seen)
        decreases |todo|
      {
        var k :| k in todo;
        var e := m[k];
        VisitedMore(order, before, todo, k, now);
        RemainsMore(m, before, todo, k, now);
        StaleMore(before, todo, k, now);
        if now - e.seen >= IDLE_TTL {
          m := m - {k};
          freed := true;
        } else {
          ScanMore(order, k, before);
          if oldestKey == "" || e.seen < oldestSeen {
            oldestKey, oldestSeen := k, e.seen;
          }
          order := order + [k];
        }
        todo := todo - {k};
      }
      AllVisited(m, before, order, now);
      if !freed && oldestKey != "" {
        m := m - {oldestKey};
      }
    }

    /** One request. The table stays within its cap as long as scans make room. */
    method Allow(ip: string, now: real) returns (ok: bool, ghost made: Table)
      modifies this`m
      ensures Makes(old(m), ip, now, made) && m == Entered(p, made, ip, now) && ok == Grants(p, made, ip, now)
      ensures |old(m)| <= CAP && RoomCertain(old(m), now) ==> |m| <= CAP
    {
      made := m;
      if ip in m {
        var e := m[ip];
        ok := Allowed(p, e.bucket, now);
        m := m[ip := Entry(Taken(p, e.bucket, now), now)];
        Grown(made, ip, m[ip]);
        return;
      }
      if |m| >= CAP {
        ghost var order := EvictLocked(now);
        SweptIsEvicted(made, now, order);
        if RoomCertain(made, now) { SweepMakesRoom(made, now, order); }
        made := m;
        assert ip !in m;
      }
      var bucket := Full(p, now);
      ok := Allowed(p, bucket, now);
      m := m[ip := Entry(Taken(p, bucket, now), now)];
      Grown(made, ip, m[ip]);
    }
  }

  /** The scan's progress: which entries have been visited and kept, in which order. */
  ghost predicate VisitedOrder(order: seq<string>, before: Table, todo: set<string>, now: real) {
    && (forall i, j :: 0 <= i < j < |order| ==> order[i] != order[j])
    && (forall i :: 0 <= i < |order| ==> order[i] in before && order[i] !in todo && !Stale(before[order[i]], now))
    && (forall k :: k in before && k !in todo && !Stale(before[k], now) ==> k in order)
  }

  ghost predicate Remains(m: Table, before: Table, todo: set<string>, now: real) {
    && (forall k :: k in m <==> k in before && (k in todo || !Stale(before[k], now)))
    && (forall k :: k in m ==> m[k] == before[k])
  }

  ghost predicate SomeStale(before: Table, todo: set<string>, now: real) {
    exists k :: k in before && k !in todo && Stale(before[k], now)
  }

  lemma StaleMore(before: Table, todo: set<string>, k: string, now: real)
    requires k in todo && k in before
    ensures SomeStale(before, todo - {k}, now) <==> SomeStale(before, todo, now) || Stale(before[k], now)
  {
    if Stale(before[k], now) { assert k !in todo - {k}; }
  }

  lemma RemainsMore(m: Table, before: Table, todo: set<string>, k: string, now: real)
    requires Remains(m, before, todo, now) && k in todo && k in before
    ensures k in m && m[k] == before[k]
    ensures Remains(if Stale(before[k], now) then m - {k} else m, before, todo - {k}, now)
  {
  }

  lemma ScanMore(order: seq<string>, k: string, m: Table)
    requires k in m && forall i :: 0 <= i < |order| ==> order[i] in m
    ensures var best := Scan(order, m);
      Scan(order + [k], m) == if best == "" || m[k].seen < m[best].seen then k else best
  {
    assert (order + [k])[..|order|] == order;
  }

  lemma VisitedMore(order: seq<string>, before: Table, todo: set<string>, k: string, now: real)
    requires VisitedOrder(order, before, todo, now) && k in todo && k in before
    ensures VisitedOrder(if Stale(before[k], now) then order else order + [k], before, todo - {k}, now)
  {
    forall j | j in before && j !in todo - {k} && !Stale(before[j], now)
      ensures j in if Stale(before[k], now) then order else order + [k]
    {
      if j != k { assert j in order; }
    }
  }

  lemma AllVisited(m: Table, before: Table, order: seq<string>, now: real)
    requires VisitedOrder(order, before, {}, now) && Remains(m, before, {}, now)
    ensures OrderOf(order, before.Keys - StaleKeys(before, now)) && m == before - StaleKeys(before, now)
    ensures StaleKeys(before, now) == {} <==> !SomeStale(before, {}, now)
    ensures StaleKeys(before, now) == {} ==> m == before
  {
    if SomeStale(before, {}, now) {
      var k :| k in before && Stale(before[k], now);
      assert k in StaleKeys(before, now);
    }
  }
}
