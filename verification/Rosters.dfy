/** Every end's roster over a whole session: who updates it, who hears of it, and what elections make
    of rosters that list ends that have left.

    An end's inbox holds, in the order in which its routing goroutine comes to them, the notices,
    keys and announcements that reach it; its outbox what it has sent and the relay not yet routed. The
    host edits its roster and announces it to everybody under its current key; anybody else adopts
    what its own host announces, if it can open it. */
module Rosters {
  import opened Wire
  import opened Election

  datatype Event =
    | Keyed(who: Id, role: Role)
    | Left(who: Id)
    | Announce(from: Id, roster: Roster, key: nat)
    | Key(key: nat)

  /** An event on its way to everybody else, or to some. */
  datatype Post = Post(all: bool, to: set<Id>, f: Event)

  /** `keys` are those it can open frames with and `key` the one it seals with. `behind` is a history
      variable: it has heard nothing from its host yet, or could not open what it heard last. */
  datatype End = End(
    hostId: Id,
    role: Role,
    roster: Roster,
    keys: set<nat>,
    key: nat,
    inbox: seq<Event>,
    outbox: seq<Post>,
    behind: bool)

  /** Only ends that have not left are kept. */
  datatype State = State(live: map<Id, End>, nextId: Id, minted: nat)

  const CREATOR := End(1, ROLE_HOST, map[1 := ROLE_HOST], {0}, 0, [], [], false)

  function Start(): State {
    State(map[1 := CREATOR], 2, 1)
  }

  predicate IsHost(e: End) {
    e.role == ROLE_HOST
  }

  // ----- What one end does -----

  function Got(e: End, f: Event): End {
    e.(inbox := e.inbox + [f])
  }

  function Sent(e: End, p: Post): End {
    e.(outbox := e.outbox + [p])
  }

  function Announced(e: End, h: Id): End {
    Sent(e, Post(true, {}, Announce(h, e.roster, e.key)))
  }

  /** The end with its first event taken out of the inbox. */
  function Popped(e: End): End
    requires e.inbox != []
  {
    e.(inbox := e.inbox[1..])
  }

  /** It promotes itself: a new key, and the roster without the old host. */
  function Promoted(e: End, x: Id, left: Id, key: nat): End {
    e.(hostId := x, role := ROLE_HOST, roster := (e.roster - {left})[x := ROLE_HOST], keys := e.keys + {key}, key := key, behind := false)
  }

  function Heard(e: End, from: Id, roster: Roster, key: nat): End {
    if from != e.hostId then e
    else if key in e.keys then e.(roster := roster, behind := false)
    else e.(behind := true)
  }

  /** Whether the first event is the departure of the end's host. */
  predicate Bereaved(e: End) {
    e.inbox != [] && e.inbox[0].Left? && !IsHost(e) && e.inbox[0].who == e.hostId
  }

  function Migrated(e: End, x: Id, left: Id, pick: Id, key: nat): End {
    if pick == 0 then e
    else if pick == x then Announced(Promoted(e, x, left, key), x)
    else e.(hostId := pick, behind := true)
  }

  /** Its routing goroutine handles the first event; `key` is the next fresh one. */
  function Reads(e: End, x: Id, order: seq<Id>, key: nat): End
    requires e.inbox != []
  {
    var p := Popped(e);
    match e.inbox[0]
    case Keyed(w, r) => if IsHost(e) then Announced(p.(roster := e.roster[w := r]), x) else p
    case Left(w) =>
      if IsHost(e) then Announced(p.(roster := e.roster - {w}), x)
      else if w != e.hostId then p
      else Migrated(p, x, w, Elected(order, e.roster - {w}), key)
    case Announce(from, r, k) => Heard(p, from, r, k)
    case Key(k) => p.(keys := e.keys + {k}, key := k)
  }

  // ----- Steps -----

  /** `DoRotate` follows a departure, `DoGrant` answers a fetch of the key, and `DoRepeat` is the host's
      answer to a changed name. */
  datatype Step =
    | DoEnter(x: Id, role: Role)
    | DoLeave(x: Id)
    | DoRoute(x: Id)
    | DoRead(x: Id, order: seq<Id>)
    | DoRotate(x: Id, to: set<Id>)
    | DoGrant(x: Id, to: set<Id>)
    | DoRepeat(x: Id)

  ghost predicate Enabled(s: State, a: Step) {
    && a.x in s.live
    && var e := s.live[a.x];
       match a
       case DoEnter(_, role) => IsHost(e) && role != ROLE_NONE && role != ROLE_HOST
       case DoLeave(_) => true
       case DoRoute(_) => e.outbox != []
       case DoRead(_, order) => e.inbox != [] && (Bereaved(e) ==> OrderOf(order, e.roster - {e.hostId}))
       case DoRotate(_, _) => IsHost(e)
       case DoGrant(_, _) => IsHost(e)
       case DoRepeat(_) => IsHost(e)
  }

  predicate Solo(a: Step) {
    a.DoRead? || a.DoRotate? || a.DoGrant? || a.DoRepeat?
  }

  /** What a step that is one end's own makes of it. */
  function Acts(e: End, a: Step, key: nat): End
    requires Solo(a) && (a.DoRead? ==> e.inbox != [])
  {
    match a
    case DoRead(x, order) => Reads(e, x, order, key)
    case DoRotate(_, to) => Sent(e.(keys := e.keys + {key}, key := key), Post(false, to, Key(key)))
    case DoGrant(_, to) => Sent(e, Post(false, to, Key(e.key)))
    case DoRepeat(x) => Announced(e, x)
  }

  function Put(s: State, x: Id, e: End): State {
    s.(live := s.live[x := e])
  }

  function Tell(live: map<Id, End>, p: Post): map<Id, End> {
    map x | x in live :: if p.all || x in p.to then Got(live[x], p.f) else live[x]
  }

  /** The newcomer is keyed by the host `h`. */
  function Entered(s: State, h: Id, role: Role): State
    requires h in s.live
  {
    var x := s.nextId;
    var e := End(h, role, map[], {s.live[h].key}, s.live[h].key, [], [], true);
    s.(live := s.live[h := Got(s.live[h], Keyed(x, role))][x := e], nextId := x + 1)
  }

  function Departed(s: State, x: Id): State {
    s.(live := Tell(s.live - {x}, Post(true, {}, Left(x))))
  }

  function Routed(s: State, x: Id): State
    requires x in s.live && s.live[x].outbox != []
  {
    var e := s.live[x];
    s.(live := Tell(s.live - {x}, e.outbox[0])[x := e.(outbox := e.outbox[1..])])
  }

  function Acted(s: State, a: Step): State
    requires a.x in s.live && Solo(a) && (a.DoRead? ==> s.live[a.x].inbox != [])
  {
    var e := s.live[a.x];
    var e' := Acts(e, a, s.minted);
    Put(s, a.x, e').(minted := if a.DoRotate? || (!IsHost(e) && IsHost(e')) then s.minted + 1 else s.minted)
  }

  function Next(s: State, a: Step): State
    requires Enabled(s, a)
  {
    match a
    case DoEnter(h, role) => Entered(s, h, role)
    case DoLeave(x) => Departed(s, x)
    case DoRoute(x) => Routed(s, x)
    case _ => Acted(s, a)
  }

  ghost predicate Takes(ss: seq<State>, steps: seq<Step>, i: nat)
    requires |ss| == |steps| + 1 && i < |steps|
  {
    Enabled(ss[i], steps[i]) && ss[i + 1] == Next(ss[i], steps[i])
  }

  ghost predicate Run(ss: seq<State>, steps: seq<Step>) {
    && |ss| == |steps| + 1 && ss[0] == Start()
    && forall i {:trigger Takes(ss, steps, i)} :: 0 <= i < |steps| ==> Takes(ss, steps, i)
  }

  /** Issued and no longer there. */
  predicate HasLeft(s: State, x: Id) {
    1 <= x < s.nextId && x !in s.live
  }

  // ----- Invariant -----

  ghost predicate RosterOk(s: State, r: Roster) {
    forall x :: x in r ==> 1 <= x < s.nextId
  }

  ghost predicate EventOk(s: State, f: Event) {
    match f
    case Keyed(w, _) => 1 <= w < s.nextId
    case Left(w) => HasLeft(s, w)
    case Announce(from, r, _) => 1 <= from < s.nextId && RosterOk(s, r)
    case Key(_) => true
  }

  predicate Own(f: Event, x: Id) {
    f.Announce? && f.from == x
  }

  /** Ends send nothing but keys and their own announcements. */
  ghost predicate PostOk(s: State, x: Id, p: Post) {
    EventOk(s, p.f) && (p.f.Key? || (Own(p.f, x) && p.all))
  }

  ghost predicate EndOk(s: State, x: Id, e: End) {
    && 1 <= x < s.nextId && 1 <= e.hostId < s.nextId && (IsHost(e) <==> e.hostId == x)
    && RosterOk(s, e.roster)
    && (forall i :: 0 <= i < |e.inbox| ==> EventOk(s, e.inbox[i]) && !Own(e.inbox[i], x))
    && (forall i :: 0 <= i < |e.outbox| ==> PostOk(s, x, e.outbox[i]))
    && forall i, j :: 0 <= i < j < |e.inbox| && e.inbox[i].Left? ==> e.inbox[i] != e.inbox[j]
  }

  /** The last announcement of `h` in an inbox, if there is any. */
  function LastOf(inbox: seq<Event>, h: Id): Option<Roster> {
    if inbox == [] then None
    else
      var f := inbox[|inbox| - 1];
      if Own(f, h) then Some(f.roster) else LastOf(inbox[..|inbox| - 1], h)
  }

  function Contents(outbox: seq<Post>): seq<Event> {
    seq(|outbox|, i requires 0 <= i < |outbox| => outbox[i].f)
  }

  /** The last announcement on its way from `h` to an end. */
  function Coming(h: Id, eh: End, e: End): Option<Roster> {
    LastOf(e.inbox + Contents(eh.outbox), h)
  }

  /** What an end is yet to hear from the host `h` ends with the host's roster; with nothing to hear and
      the last one opened, it has that roster. */
  ghost predicate Follows(h: Id, eh: End, e: End) {
    && (Coming(h, eh, e).Some? ==> Coming(h, eh, e).value == eh.roster)
    && (Coming(h, eh, e) == None && e.hostId == h && !e.behind ==> e.roster == eh.roster)
  }

  /** An end that is not there has nothing to read and has heard nothing. */
  const ABSENT := End(0, ROLE_NONE, map[], {}, 0, [], [], true)

  function At(s: State, x: Id): End {
    if x in s.live then s.live[x] else ABSENT
  }

  ghost predicate PairOk(s: State, h: Id, x: Id) {
    h in s.live && h != x && IsHost(s.live[h]) ==> Follows(h, s.live[h], At(s, x))
  }

  ghost predicate EndsOk(s: State) {
    forall x {:trigger EndOk(s, x, s.live[x])} :: x in s.live ==> EndOk(s, x, s.live[x])
  }

  ghost predicate PairsOk(s: State) {
    forall h, x {:trigger PairOk(s, h, x)} :: PairOk(s, h, x)
  }

  ghost predicate Inv(s: State) {
    EndsOk(s) && PairsOk(s)
  }

  // ----- Ends -----

  lemma LaterOk(s: State, x: Id, e: End, s': State)
    requires EndOk(s, x, e) && s.nextId <= s'.nextId && (forall w :: HasLeft(s, w) ==> HasLeft(s', w))
    ensures EndOk(s', x, e)
  {
    forall i | 0 <= i < |e.inbox| ensures EventOk(s', e.inbox[i]) { assert EventOk(s, e.inbox[i]); }
    forall i | 0 <= i < |e.outbox| ensures PostOk(s', x, e.outbox[i]) { assert PostOk(s, x, e.outbox[i]); }
  }

  lemma GotOk(s: State, x: Id, e: End, f: Event)
    requires EndOk(s, x, e) && EventOk(s, f) && !Own(f, x) && (f.Left? ==> f !in e.inbox)
    ensures EndOk(s, x, Got(e, f))
  {
  }

  lemma SentOk(s: State, x: Id, e: End, p: Post)
    requires EndOk(s, x, e) && PostOk(s, x, p)
    ensures EndOk(s, x, Sent(e, p))
  {
  }

  lemma PoppedOk(s: State, x: Id, e: End)
    requires EndOk(s, x, e) && e.inbox != []
    ensures EndOk(s, x, Popped(e)) && EventOk(s, e.inbox[0])
  {
  }

  lemma ElectedInside(order: seq<Id>, c: Roster)
    ensures Elected(order, c) == 0 || Elected(order, c) in c
  {
  }

  lemma AnnouncedOk(s: State, x: Id, e: End)
    requires EndOk(s, x, e)
    ensures EndOk(s, x, Announced(e, x))
  {
    SentOk(s, x, e, Post(true, {}, Announce(x, e.roster, e.key)));
  }

  lemma ReadsOk(s: State, x: Id, e: End, order: seq<Id>, key: nat)
    requires EndOk(s, x, e) && e.inbox != []
    ensures EndOk(s, x, Reads(e, x, order, key))
  {
    PoppedOk(s, x, e);
    var p := Popped(e);
    match e.inbox[0]
    case Keyed(w, r) => if IsHost(e) { AnnouncedOk(s, x, p.(roster := e.roster[w := r])); }
    case Left(w) =>
      if IsHost(e) {
        AnnouncedOk(s, x, p.(roster := e.roster - {w}));
      } else if w == e.hostId {
        ElectedInside(order, e.roster - {w});
        AnnouncedOk(s, x, Promoted(p, x, w, key));
      }
    case Announce(_, _, _) =>
    case Key(_) =>
  }

  lemma ActsOk(s: State, a: Step, e: End, key: nat)
    requires EndOk(s, a.x, e) && Solo(a) && (a.DoRead? ==> e.inbox != [])
    ensures EndOk(s, a.x, Acts(e, a, key))
  {
    match a
    case DoRead(x, order) => ReadsOk(s, x, e, order, key);
    case DoRotate(x, to) => SentOk(s, x, e.(keys := e.keys + {key}, key := key), Post(false, to, Key(key)));
    case DoGrant(x, to) => SentOk(s, x, e, Post(false, to, Key(e.key)));
    case DoRepeat(x) => AnnouncedOk(s, x, e);
  }

  lemma RoutedOk(s: State, x: Id, z: Id)
    requires EndsOk(s) && x in s.live && s.live[x].outbox != [] && z in Routed(s, x).live
    ensures EndOk(s, z, Routed(s, x).live[z])
  {
    var e := s.live[x];
    assert EndOk(s, x, e) && EndOk(s, z, s.live[z]) && PostOk(s, x, e.outbox[0]);
    if z != x { GotOk(s, z, s.live[z], e.outbox[0].f); }
  }

  lemma EnterOk(s: State, h: Id, role: Role, z: Id)
    requires EndsOk(s) && Enabled(s, DoEnter(h, role)) && z in Entered(s, h, role).live
    requires z in s.live ==> EndOk(Entered(s, h, role), z, s.live[z])
    ensures EndOk(Entered(s, h, role), z, Entered(s, h, role).live[z])
  {
    assert EndOk(s, h, s.live[h]);
    var s' := Entered(s, h, role);
    if z == h && h != s.nextId { GotOk(s', h, s.live[h], Keyed(s.nextId, role)); }
  }

  lemma StepEnd(s: State, a: Step, z: Id)
    requires EndsOk(s) && Enabled(s, a) && z in Next(s, a).live
    requires forall w :: HasLeft(s, w) ==> HasLeft(Next(s, a), w)
    ensures EndOk(Next(s, a), z, Next(s, a).live[z])
  {
    var s' := Next(s, a);
    assert EndOk(s, a.x, s.live[a.x]);
    if z in s.live {
      assert EndOk(s, z, s.live[z]);
      LaterOk(s, z, s.live[z], s');
    }
    match a
    case DoEnter(h, role) => EnterOk(s, h, role, z);
    case DoLeave(x) => GotOk(s', z, s.live[z], Left(x));
    case DoRoute(x) =>
      RoutedOk(s, x, z);
      LaterOk(s, z, s'.live[z], s');
    case _ =>
      ActsOk(s, a, s.live[a.x], s.minted);
      LaterOk(s, z, s'.live[z], s');
  }

  lemma StepEnds(s: State, a: Step)
    requires EndsOk(s) && Enabled(s, a)
    ensures EndsOk(Next(s, a)) && s.nextId <= Next(s, a).nextId && forall w :: HasLeft(s, w) ==> HasLeft(Next(s, a), w)
  {
    var s' := Next(s, a);
    assert EndOk(s, a.x, s.live[a.x]);
    assert forall w :: HasLeft(s, w) ==> HasLeft(s', w);
    forall z | z in s'.live ensures EndOk(s', z, s'.live[z]) {
      StepEnd(s, a, z);
    }
  }

  // ----- Followers -----

  lemma {:induction false} LastOfBoth(fs: seq<Event>, gs: seq<Event>, h: Id)
    ensures LastOf(fs + gs, h) == if LastOf(gs, h).Some? then LastOf(gs, h) else LastOf(fs, h)
  {
    if gs == [] {
      assert fs + gs == fs;
    } else {
      var n := |gs| - 1;
      assert (fs + gs)[..|fs| + n] == fs + gs[..n];
      LastOfBoth(fs, gs[..n], h);
    }
  }

  lemma ContentsMore(ps: seq<Post>, p: Post)
    ensures Contents(ps + [p]) == Contents(ps) + [p.f]
  {
  }

  lemma ContentsLess(ps: seq<Post>)
    requires ps != []
    ensures Contents(ps) == [ps[0].f] + Contents(ps[1..])
  {
  }

  lemma PoppedComing(h: Id, eh: End, e: End)
    requires e.inbox != []
    ensures
      var c, f := Coming(h, eh, Popped(e)), e.inbox[0];
      Coming(h, eh, e) == if c.Some? then c else if Own(f, h) then Some(f.roster) else None
  {
    var rest := e.inbox[1..] + Contents(eh.outbox);
    assert e.inbox + Contents(eh.outbox) == [e.inbox[0]] + rest;
    LastOfBoth([e.inbox[0]], rest, h);
  }

  /** The follower takes its first event. */
  lemma ReadsFollows(h: Id, eh: End, e: End, x: Id, order: seq<Id>, key: nat)
    requires Follows(h, eh, e) && e.inbox != [] && x != h && (IsHost(e) <==> e.hostId == x)
    ensures Follows(h, eh, Reads(e, x, order, key))
  {
    PoppedComing(h, eh, e);
    var e' := Reads(e, x, order, key);
    assert Coming(h, eh, e') == Coming(h, eh, Popped(e));
  }

  lemma GotFollows(h: Id, eh: End, e: End, f: Event)
    requires Follows(h, eh, e) && !Own(f, h)
    ensures Follows(h, eh, Got(e, f))
  {
    var out := Contents(eh.outbox);
    LastOfBoth(e.inbox + [f], out, h);
    LastOfBoth(e.inbox, [f], h);
    LastOfBoth(e.inbox, out, h);
  }

  /** The relay moves the host's first message over to the follower. */
  lemma MovedFollows(h: Id, eh: End, e: End)
    requires Follows(h, eh, e) && eh.outbox != []
    ensures
      var eh' := eh.(outbox := eh.outbox[1..]);
      Follows(h, eh', Got(e, eh.outbox[0].f)) && (!Own(eh.outbox[0].f, h) ==> Follows(h, eh', e))
  {
    var f, rest := eh.outbox[0].f, Contents(eh.outbox[1..]);
    ContentsLess(eh.outbox);
    assert e.inbox + Contents(eh.outbox) == e.inbox + [f] + rest;
    LastOfBoth(e.inbox + [f], rest, h);
    LastOfBoth(e.inbox, [f], h);
    LastOfBoth(e.inbox, rest, h);
  }

  /** The host announces. */
  lemma AnnouncedFollows(h: Id, eh: End, e: End)
    ensures Follows(h, Announced(eh, h), e)
  {
    var out, f := Contents(eh.outbox), Announce(h, eh.roster, eh.key);
    ContentsMore(eh.outbox, Post(true, {}, f));
    assert e.inbox + (out + [f]) == (e.inbox + out) + [f];
    LastOfBoth(e.inbox + out, [f], h);
  }

  /** The host sends a key. */
  lemma KeyFollows(h: Id, eh: End, e: End, p: Post)
    requires Follows(h, eh, e) && !Own(p.f, h)
    ensures Follows(h, Sent(eh, p), e)
  {
    var out := Contents(eh.outbox);
    ContentsMore(eh.outbox, p);
    assert e.inbox + (out + [p.f]) == (e.inbox + out) + [p.f];
    LastOfBoth(e.inbox + out, [p.f], h);
  }

  /** The host, or an end that becomes the host, takes a step of its own. */
  lemma HostActs(a: Step, eh: End, e: End, key: nat)
    requires Solo(a) && (a.DoRead? ==> eh.inbox != [] && !Own(eh.inbox[0], a.x)) && (IsHost(eh) <==> eh.hostId == a.x)
    requires (IsHost(eh) ==> Follows(a.x, eh, e)) && IsHost(Acts(eh, a, key)) && (IsHost(eh) || a.DoRead?)
    ensures Follows(a.x, Acts(eh, a, key), e)
  {
    var h := a.x;
    match a
    case DoRotate(_, to) => KeyFollows(h, eh.(keys := eh.keys + {key}, key := key), e, Post(false, to, Key(key)));
    case DoGrant(_, to) => KeyFollows(h, eh, e, Post(false, to, Key(eh.key)));
    case DoRepeat(_) => AnnouncedFollows(h, eh, e);
    case DoRead(_, order) => HostReads(h, eh, e, order, key);
  }

  lemma HostReads(h: Id, eh: End, e: End, order: seq<Id>, key: nat)
    requires eh.inbox != [] && !Own(eh.inbox[0], h) && (IsHost(eh) <==> eh.hostId == h)
    requires (IsHost(eh) ==> Follows(h, eh, e)) && IsHost(Reads(eh, h, order, key))
    ensures Follows(h, Reads(eh, h, order, key), e)
  {
    var p := Popped(eh);
    match eh.inbox[0]
    case Keyed(w, r) => AnnouncedFollows(h, p.(roster := eh.roster[w := r]), e);
    case Left(w) =>
      if IsHost(eh) { AnnouncedFollows(h, p.(roster := eh.roster - {w}), e); } else { AnnouncedFollows(h, Promoted(p, h, w, key), e); }
    case Announce(_, _, _) =>
    case Key(_) =>
  }

  lemma AbsentFollows(h: Id, eh: End, e: End)
    requires Follows(h, eh, e)
    ensures forall x: End :: x.inbox == [] && x.behind ==> Follows(h, eh, x)
  {
    var out := Contents(eh.outbox);
    LastOfBoth(e.inbox, out, h);
    assert [] + out == out;
  }

  lemma ActedPair(s: State, a: Step, h: Id, x: Id)
    requires EndsOk(s) && PairOk(s, h, x) && Enabled(s, a) && Solo(a)
    ensures PairOk(Next(s, a), h, x)
  {
    var s' := Next(s, a);
    if h in s'.live && h != x && IsHost(s'.live[h]) {
      assert EndOk(s, h, s.live[h]) && (x in s.live ==> EndOk(s, x, s.live[x]));
      if a.x == h {
        HostActs(a, s.live[h], At(s, x), s.minted);
      } else if a.x == x && a.DoRead? {
        ReadsFollows(h, s.live[h], s.live[x], x, a.order, s.minted);
      }
    }
  }

  lemma RoutedPair(s: State, z: Id, h: Id, x: Id)
    requires EndsOk(s) && PairOk(s, h, x) && Enabled(s, DoRoute(z))
    ensures PairOk(Routed(s, z), h, x)
  {
    var s' := Routed(s, z);
    if h in s'.live && h != x && IsHost(s'.live[h]) {
      var p := s.live[z].outbox[0];
      assert EndOk(s, z, s.live[z]) && PostOk(s, z, p);
      if z == h {
        MovedFollows(h, s.live[h], At(s, x));
        if x !in s.live { AbsentFollows(h, s'.live[h], Got(ABSENT, p.f)); }
      } else {
        GotFollows(h, s.live[h], At(s, x), p.f);
      }
    }
  }

  lemma OtherPair(s: State, a: Step, h: Id, x: Id)
    requires EndsOk(s) && PairOk(s, h, x) && Enabled(s, a) && (a.DoEnter? || a.DoLeave?)
    ensures PairOk(Next(s, a), h, x)
  {
    var s' := Next(s, a);
    if h in s'.live && h != x && IsHost(s'.live[h]) {
      assert EndOk(s, a.x, s.live[a.x]) && (x in s.live ==> EndOk(s, x, s.live[x])) && s'.live[h].outbox == s.live[h].outbox;
      AbsentFollows(h, s.live[h], At(s, x));
      GotFollows(h, s.live[h], At(s, x), if a.DoEnter? then Keyed(s.nextId, a.role) else Left(a.x));
    }
  }

  lemma StepInv(s: State, a: Step)
    requires Inv(s) && Enabled(s, a)
    ensures Inv(Next(s, a)) && s.nextId <= Next(s, a).nextId && forall w :: HasLeft(s, w) ==> HasLeft(Next(s, a), w)
  {
    StepEnds(s, a);
    forall h, x ensures PairOk(Next(s, a), h, x) {
      assert PairOk(s, h, x);
      if Solo(a) { ActedPair(s, a, h, x); } else if a.DoRoute? { RoutedPair(s, a.x, h, x); } else { OtherPair(s, a, h, x); }
    }
  }

  lemma {:induction false} RunInv(ss: seq<State>, steps: seq<Step>, i: nat)
    requires Run(ss, steps) && i < |ss|
    ensures Inv(ss[i])
    decreases i
  {
    if i > 0 {
      RunInv(ss, steps, i - 1);
      assert Takes(ss, steps, i - 1);
      StepInv(ss[i - 1], steps[i - 1]);
    } else {
      assert EndOk(Start(), 1, CREATOR);
      assert [] + Contents(CREATOR.outbox) == [];
    }
  }

  // ----- Results -----

  /** In every run, the last announcement on its way from an end's host is the host's roster; an end for
      which there is none, and that could open the last one, has the host's roster. */
  lemma RosterFollowsHost(ss: seq<State>, steps: seq<Step>, i: nat, x: Id)
    requires Run(ss, steps) && i < |ss|
    requires x in ss[i].live && ss[i].live[x].hostId in ss[i].live && IsHost(ss[i].live[ss[i].live[x].hostId])
    ensures
      var h, e := ss[i].live[x].hostId, ss[i].live[x];
      x != h ==> Coming(h, ss[i].live[h], e) == None && !e.behind ==> e.roster == ss[i].live[h].roster
    ensures
      var h, e := ss[i].live[x].hostId, ss[i].live[x];
      x != h ==> Coming(h, ss[i].live[h], e).Some? ==> Coming(h, ss[i].live[h], e).value == ss[i].live[h].roster
  {
    RunInv(ss, steps, i);
    assert PairOk(ss[i], ss[i].live[x].hostId, x);
  }

  // ----- What a host lists -----

  /** The notices in an inbox: whoever was keyed joined after `x`, and a departure comes after the notice that
      its end was keyed. */
  ghost predicate NoticesOk(s: State, x: Id, inbox: seq<Event>) {
    && (forall p :: 0 <= p < |inbox| && inbox[p].Keyed? ==> inbox[p].who > x && (HasLeft(s, inbox[p].who) ==> Left(inbox[p].who) in inbox))
    && (forall q, p :: 0 <= q < p < |inbox| && inbox[q].Left? && inbox[p].Keyed? ==> inbox[p].who != inbox[q].who)
  }

  lemma NoticesGot(s: State, x: Id, inbox: seq<Event>, f: Event, s': State)
    requires NoticesOk(s, x, inbox) && (f.Keyed? ==> f.who > x && !HasLeft(s', f.who) && Left(f.who) !in inbox)
    requires forall w :: HasLeft(s', w) ==> HasLeft(s, w) || f == Left(w)
    ensures NoticesOk(s', x, inbox + [f])
  {
    var more := inbox + [f];
    forall p | 0 <= p < |more| && more[p].Keyed? ensures more[p].who > x && (HasLeft(s', more[p].who) ==> Left(more[p].who) in more) {
      if p < |inbox| {
        assert inbox[p] == more[p];
        if HasLeft(s, more[p].who) { assert Left(more[p].who) in inbox; }
      }
    }
  }

  lemma NoticesRead(s: State, x: Id, inbox: seq<Event>)
    requires NoticesOk(s, x, inbox) && inbox != []
    ensures NoticesOk(s, x, inbox[1..])
  {
    var rest := inbox[1..];
    forall p | 0 <= p < |rest| && rest[p].Keyed? && HasLeft(s, rest[p].who) ensures Left(rest[p].who) in rest {
      assert inbox[p + 1] == rest[p];
      var q :| 0 <= q < |inbox| && inbox[q] == Left(rest[p].who);
      assert q > p + 1;
      assert rest[q - 1] == inbox[q];
    }
  }

  ghost predicate AllNotices(s: State) {
    forall x {:trigger NoticesOk(s, x, s.live[x].inbox)} :: x in s.live ==> NoticesOk(s, x, s.live[x].inbox)
  }

  /** Reading takes the first event out of the inbox and puts nothing in. */
  lemma ActsInbox(e: End, a: Step, key: nat)
    requires Solo(a) && (a.DoRead? ==> e.inbox != [])
    ensures Acts(e, a, key).inbox == if a.DoRead? then e.inbox[1..] else e.inbox
  {
  }

  lemma StepNotices(s: State, a: Step, x: Id)
    requires Inv(s) && AllNotices(s) && Enabled(s, a) && x in Next(s, a).live
    ensures NoticesOk(Next(s, a), x, Next(s, a).live[x].inbox)
  {
    var s' := Next(s, a);
    assert EndOk(s, a.x, s.live[a.x]);
    if x in s.live {
      assert NoticesOk(s, x, s.live[x].inbox) && EndOk(s, x, s.live[x]);
      if Solo(a) {
        ActsInbox(s.live[a.x], a, s.minted);
        if a.DoRead? { NoticesRead(s, a.x, s.live[a.x].inbox); }
      } else if a.DoEnter? {
        if x == a.x { NoticesGot(s, x, s.live[x].inbox, Keyed(s.nextId, a.role), s'); }
      } else if a.DoLeave? {
        NoticesGot(s, x, s.live[x].inbox, Left(a.x), s');
      } else {
        assert PostOk(s, a.x, s.live[a.x].outbox[0]);
        NoticesGot(s, x, s.live[x].inbox, s.live[a.x].outbox[0].f, s');
      }
    }
  }

  lemma {:induction false} RunNotices(ss: seq<State>, steps: seq<Step>, i: nat)
    requires Run(ss, steps) && i < |ss|
    ensures AllNotices(ss[i])
  {
    if i > 0 {
      RunNotices(ss, steps, i - 1);
      RunInv(ss, steps, i - 1);
      assert Takes(ss, steps, i - 1);
      forall x | x in ss[i].live ensures NoticesOk(ss[i], x, ss[i].live[x].inbox) { StepNotices(ss[i - 1], steps[i - 1], x); }
    }
  }

  /** At step `i` the end `h` reads `f`, and is host afterwards. */
  ghost predicate HostReadsAt(ss: seq<State>, steps: seq<Step>, i: nat, h: Id, f: Event) {
    && i < |steps| && |ss| == |steps| + 1 && steps[i].DoRead? && steps[i].x == h
    && h in ss[i].live && ss[i].live[h].inbox != [] && ss[i].live[h].inbox[0] == f
    && h in ss[i + 1].live && IsHost(ss[i + 1].live[h])
  }

  /** The host is through with `w`: it is gone, and nothing about it is left to read. */
  ghost predicate Purged(s: State, h: Id, w: Id) {
    && h in s.live && IsHost(s.live[h]) && HasLeft(s, w) && w !in s.live[h].roster
    && forall i :: 0 <= i < |s.live[h].inbox| && (s.live[h].inbox[i].Keyed? || s.live[h].inbox[i].Left?) ==> s.live[h].inbox[i].who != w
  }

  lemma HostEdits(e: End, a: Step, key: nat)
    requires Solo(a) && IsHost(e) && e.hostId == a.x && (a.DoRead? ==> e.inbox != [] && !Own(e.inbox[0], a.x))
    ensures IsHost(Acts(e, a, key)) && Acts(e, a, key).hostId == a.x
    ensures Acts(e, a, key).roster ==
            if a.DoRead? && e.inbox[0].Keyed? then e.roster[e.inbox[0].who := e.inbox[0].role]
            else if a.DoRead? && e.inbox[0].Left? then e.roster - {e.inbox[0].who}
            else e.roster
  {
  }

  lemma PurgedStep(s: State, a: Step, h: Id, w: Id)
    requires Inv(s) && Enabled(s, a) && Purged(s, h, w) && h in Next(s, a).live
    ensures Purged(Next(s, a), h, w)
  {
    var s' := Next(s, a);
    StepInv(s, a);
    assert EndOk(s, h, s.live[h]) && EndOk(s, a.x, s.live[a.x]);
    if Solo(a) && a.x == h {
      HostEdits(s.live[h], a, s.minted);
      ActsInbox(s.live[h], a, s.minted);
    } else if a.DoRoute? {
      assert PostOk(s, a.x, s.live[a.x].outbox[0]);
    }
  }

  /** Whoever a host has read to have left, the old host included, it never lists again. */
  lemma {:induction false} HostPrunes(ss: seq<State>, steps: seq<Step>, i: nat, j: nat, h: Id, w: Id)
    requires Run(ss, steps) && i < j < |ss| && HostReadsAt(ss, steps, i, h, Left(w)) && h in ss[j].live
    ensures Purged(ss[j], h, w) && w !in ss[j].live[h].roster
    decreases j
  {
    RunInv(ss, steps, j - 1);
    assert Takes(ss, steps, j - 1);
    if i < j - 1 {
      StillLive(ss, steps, i + 1, j - 1, h);
      HostPrunes(ss, steps, i, j - 1, h, w);
      PurgedStep(ss[j - 1], steps[j - 1], h, w);
    } else {
      ReadsLeave(ss, steps, i, h, w);
    }
  }

  lemma ReadsLeave(ss: seq<State>, steps: seq<Step>, i: nat, h: Id, w: Id)
    requires Run(ss, steps) && HostReadsAt(ss, steps, i, h, Left(w))
    ensures Purged(ss[i + 1], h, w)
  {
    RunInv(ss, steps, i);
    RunNotices(ss, steps, i);
    assert Takes(ss, steps, i);
    var s, e := ss[i], ss[i].live[h];
    assert EndOk(s, h, e) && NoticesOk(s, h, e.inbox) && EventOk(s, e.inbox[0]);
    NoticesRead(s, h, e.inbox);
    ActsInbox(e, steps[i], s.minted);
    var rest := e.inbox[1..];
    forall k | 0 <= k < |rest| && (rest[k].Keyed? || rest[k].Left?) ensures rest[k].who != w { assert rest[k] == e.inbox[k + 1]; }
    assert HasLeft(ss[i + 1], w);
  }

  lemma {:induction false} StillLive(ss: seq<State>, steps: seq<Step>, i: nat, j: nat, h: Id)
    requires Run(ss, steps) && i <= j < |steps| && h in ss[i].live && h in ss[j + 1].live
    ensures h in ss[j].live
  {
    RunInv(ss, steps, i);
    assert EndOk(ss[i], h, ss[i].live[h]);
    Issued(ss, steps, i, j);
    assert Takes(ss, steps, j);
    Stayed(ss[j], steps[j], h);
  }

  /** The host lists `w` with the role `r`. */
  predicate Lists(s: State, h: Id, w: Id, r: Role) {
    h in s.live && IsHost(s.live[h]) && w in s.live[h].roster && s.live[h].roster[w] == r
  }

  lemma ListsStep(s: State, a: Step, h: Id, w: Id, r: Role)
    requires Inv(s) && Enabled(s, a) && Lists(s, h, w, r) && h in Next(s, a).live
    requires a.DoRead? && a.x == h ==>
      var f := s.live[h].inbox[0]; !(f.Left? && f.who == w) && !(f.Keyed? && f.who == w)
    ensures Lists(Next(s, a), h, w, r)
  {
    StepInv(s, a);
    assert EndOk(s, h, s.live[h]) && EndOk(s, a.x, s.live[a.x]);
    if Solo(a) && a.x == h { HostEdits(s.live[h], a, s.minted); }
  }

  /** Whoever a host has read to be keyed it lists with that role until it reads that it left. */
  lemma {:induction false} HostLists(ss: seq<State>, steps: seq<Step>, i: nat, j: nat, h: Id, w: Id, r: Role)
    requires Run(ss, steps) && i < j < |ss| && HostReadsAt(ss, steps, i, h, Keyed(w, r)) && h in ss[j].live
    requires forall k, f :: i < k < j && HostReadsAt(ss, steps, k, h, f) ==> f != Left(w) && !(f.Keyed? && f.who == w)
    ensures Lists(ss[j], h, w, r)
    decreases j
  {
    RunInv(ss, steps, j - 1);
    assert Takes(ss, steps, j - 1);
    if i < j - 1 {
      StillLive(ss, steps, i + 1, j - 1, h);
      HostLists(ss, steps, i, j - 1, h, w, r);
      var s, a := ss[j - 1], steps[j - 1];
      assert EndOk(s, h, s.live[h]);
      if a.DoRead? && a.x == h {
        HostEdits(s.live[h], a, s.minted);
        assert HostReadsAt(ss, steps, j - 1, h, s.live[h].inbox[0]);
      }
      ListsStep(s, a, h, w, r);
    } else {
      assert EndOk(ss[i], h, ss[i].live[h]);
    }
  }

  /** A host lists itself as the host. */
  lemma {:induction false} HostListsItself(ss: seq<State>, steps: seq<Step>, i: nat, h: Id)
    requires Run(ss, steps) && i < |ss| && h in ss[i].live && IsHost(ss[i].live[h])
    ensures Lists(ss[i], h, h, ROLE_HOST)
  {
    if i > 0 {
      RunInv(ss, steps, i - 1);
      RunNotices(ss, steps, i - 1);
      assert Takes(ss, steps, i - 1);
      if h in ss[i - 1].live && IsHost(ss[i - 1].live[h]) { HostListsItself(ss, steps, i - 1, h); }
      ListsItselfStep(ss[i - 1], steps[i - 1], h);
    }
  }

  lemma ListsItselfStep(s: State, a: Step, h: Id)
    requires Inv(s) && AllNotices(s) && Enabled(s, a) && h in Next(s, a).live && IsHost(Next(s, a).live[h])
    requires h in s.live && IsHost(s.live[h]) ==> Lists(s, h, h, ROLE_HOST)
    ensures Lists(Next(s, a), h, h, ROLE_HOST)
  {
    if h in s.live && IsHost(s.live[h]) {
      assert EndOk(s, h, s.live[h]) && NoticesOk(s, h, s.live[h].inbox);
      ListsStep(s, a, h, h, ROLE_HOST);
    }
  }

  /** The next thing the end reads is that its host `l` has left. */
  predicate Waits(e: End, l: Id, roster: Roster) {
    Bereaved(e) && e.hostId == l && e.roster == roster
  }

  ghost predicate AllWait(s: State, l: Id, roster: Roster) {
    s.live.Keys != {} && forall x {:trigger s.live[x]} :: x in s.live ==> Waits(s.live[x], l, roster)
  }

  ghost predicate AllOrders(orders: map<Id, seq<Id>>, s: State, c: Roster) {
    orders.Keys == s.live.Keys && forall x {:trigger orders[x]} :: x in orders ==> OrderOf(orders[x], c)
  }

  /** The end once it has read its next event, if there is one. */
  function After(s: State, x: Id, order: seq<Id>): End
    requires x in s.live
  {
    if s.live[x].inbox == [] then s.live[x] else Reads(s.live[x], x, order, s.minted)
  }

  lemma OneElects(s: State, x: Id, l: Id, roster: Roster, order: seq<Id>, h: Id)
    requires x in s.live && EndOk(s, x, s.live[x]) && Waits(s.live[x], l, roster)
    requires OrderOf(order, roster - {l}) && Picks(roster - {l}, h)
    ensures RosterOk(s, roster) && (h == 0 || h in roster)
    ensures h == 0 ==> After(s, x, order) == Popped(s.live[x])
    ensures h != 0 ==> After(s, x, order).hostId == h
    ensures IsHost(After(s, x, order)) <==> x == h
  {
    var c := roster - {l};
    assert Clear(c);
    ElectedPick(order, c);
    PicksOne(c, Elected(order, c), h);
    ElectedInside(order, c);
  }

  /** Everybody who is still there follows `l` with one roster and is about to read that `l` has left:
      they will all set one and the same host, and somebody takes over, and then exactly the
      documented pick, if and only if the pick has not left itself. */
  lemma TakesOverExactly(ss: seq<State>, steps: seq<Step>, i: nat, l: Id, roster: Roster, orders: map<Id, seq<Id>>) returns (h: Id)
    requires Run(ss, steps) && i < |ss| && AllWait(ss[i], l, roster) && AllOrders(orders, ss[i], roster - {l})
    ensures Picks(roster - {l}, h)
    ensures h == 0 ==> forall x :: x in orders ==> After(ss[i], x, orders[x]) == Popped(ss[i].live[x])
    ensures h != 0 ==> forall x :: x in orders ==> After(ss[i], x, orders[x]).hostId == h
    ensures forall x :: x in orders ==> (IsHost(After(ss[i], x, orders[x])) <==> x == h)
    ensures (exists x :: x in orders && IsHost(After(ss[i], x, orders[x]))) <==> h != 0 && !HasLeft(ss[i], h)
  {
    var s := ss[i];
    RunInv(ss, steps, i);
    var y :| y in s.live;
    assert EndOk(s, y, s.live[y]) && Clear(roster - {l});
    ElectedPick(orders[y], roster - {l});
    h := Elected(orders[y], roster - {l});
    var pick := h;
    forall x | x in orders
      ensures RosterOk(s, roster) && (pick == 0 || pick in roster)
      ensures pick == 0 ==> After(s, x, orders[x]) == Popped(s.live[x])
      ensures pick != 0 ==> After(s, x, orders[x]).hostId == pick
      ensures IsHost(After(s, x, orders[x])) <==> x == pick
    {
      assert EndOk(s, x, s.live[x]);
      OneElects(s, x, l, roster, orders[x], pick);
    }
    assert y in orders;
    if pick in orders { assert IsHost(After(s, pick, orders[pick])) && EndOk(s, pick, s.live[pick]); }
  }

  /** Until an end reads, nothing changes what it waits for. */
  lemma {:induction false} WaitsUntilItReads(ss: seq<State>, steps: seq<Step>, i: nat, k: nat, x: Id, l: Id, roster: Roster)
    requires Run(ss, steps) && i <= k < |ss| && x in ss[i].live && x in ss[k].live && Waits(ss[i].live[x], l, roster)
    requires forall j :: i <= j < k ==> !(steps[j].DoRead? && steps[j].x == x)
    ensures Waits(ss[k].live[x], l, roster)
    decreases k - i
  {
    if i < k {
      assert Takes(ss, steps, k - 1);
      RunInv(ss, steps, i);
      assert EndOk(ss[i], x, ss[i].live[x]);
      Issued(ss, steps, i, k - 1);
      Stayed(ss[k - 1], steps[k - 1], x);
      WaitsUntilItReads(ss, steps, i, k - 1, x, l, roster);
      StepWaits(ss[k - 1], steps[k - 1], x, l, roster);
    }
  }

  lemma StepWaits(s: State, a: Step, x: Id, l: Id, roster: Roster)
    requires Enabled(s, a) && x in s.live && x < s.nextId && x in Next(s, a).live && Waits(s.live[x], l, roster)
    requires !(a.DoRead? && a.x == x)
    ensures Waits(Next(s, a).live[x], l, roster)
  {
  }

  /** However the deliveries interleave with everything else: each of those ends sets the same host when
      it comes to read, and becomes the host if and only if it is the pick. */
  lemma EachReaderElects(ss: seq<State>, steps: seq<Step>, i: nat, k: nat, l: Id, roster: Roster, h: Id)
    requires Run(ss, steps) && i <= k < |steps| && AllWait(ss[i], l, roster) && Picks(roster - {l}, h)
    requires steps[k].DoRead? && steps[k].x in ss[i].live
    requires forall j :: i <= j < k ==> !(steps[j].DoRead? && steps[j].x == steps[k].x)
    ensures steps[k].x in ss[k + 1].live
    ensures ss[k + 1].live[steps[k].x].hostId == if h == 0 then l else h
    ensures IsHost(ss[k + 1].live[steps[k].x]) <==> steps[k].x == h
  {
    var x := steps[k].x;
    assert Takes(ss, steps, k);
    WaitsUntilItReads(ss, steps, i, k, x, l, roster);
    RunInv(ss, steps, k);
    assert EndOk(ss[k], x, ss[k].live[x]);
    OneElects(ss[k], x, l, roster, steps[k].order, h);
  }

  // ----- Ends without a host -----

  /** Its host has left, it has read so already, and it is not the host. */
  predicate Orphan(s: State, x: Id)
    requires x in s.live
  {
    var e := s.live[x];
    !IsHost(e) && HasLeft(s, e.hostId) && Left(e.hostId) !in e.inbox
  }

  lemma GotNothing(e: End, f: Event, g: Event)
    requires g !in e.inbox && f != g
    ensures g !in Got(e, f).inbox
  {
  }

  lemma StepOrphan(s: State, a: Step, x: Id)
    requires Inv(s) && Enabled(s, a) && x in s.live && Orphan(s, x) && x in Next(s, a).live
    ensures Orphan(Next(s, a), x) && Next(s, a).live[x].hostId == s.live[x].hostId
  {
    var e, g := s.live[x], Left(s.live[x].hostId);
    StepInv(s, a);
    assert EndOk(s, x, e) && EndOk(s, a.x, s.live[a.x]);
    match a
    case DoEnter(_, role) => GotNothing(e, Keyed(s.nextId, role), g);
    case DoLeave(y) => GotNothing(e, Left(y), g);
    case DoRoute(y) =>
      assert PostOk(s, y, s.live[y].outbox[0]);
      GotNothing(e, s.live[y].outbox[0].f, g);
    case _ =>
  }

  /** An end without a host stays without one for the rest of the session. */
  lemma {:induction false} OrphanForever(ss: seq<State>, steps: seq<Step>, i: nat, j: nat, x: Id)
    requires Run(ss, steps) && i <= j < |ss| && x in ss[i].live && Orphan(ss[i], x) && x in ss[j].live
    ensures Orphan(ss[j], x) && ss[j].live[x].hostId == ss[i].live[x].hostId
    decreases j - i
  {
    if i < j {
      assert Takes(ss, steps, j - 1);
      RunInv(ss, steps, j - 1);
      Stayed(ss[j - 1], steps[j - 1], x);
      RunInv(ss, steps, i);
      assert EndOk(ss[i], x, ss[i].live[x]);
      Issued(ss, steps, i, j - 1);
      OrphanForever(ss, steps, i, j - 1, x);
      StepOrphan(ss[j - 1], steps[j - 1], x);
    }
  }

  lemma Stayed(s: State, a: Step, x: Id)
    requires Enabled(s, a) && x in Next(s, a).live
    ensures x in s.live || x == s.nextId
  {
  }

  lemma {:induction false} Issued(ss: seq<State>, steps: seq<Step>, i: nat, j: nat)
    requires Run(ss, steps) && i <= j < |ss|
    ensures ss[i].nextId <= ss[j].nextId
    decreases j - i
  {
    if i < j {
      Issued(ss, steps, i, j - 1);
      assert Takes(ss, steps, j - 1);
    }
  }

  /** If nobody left has a host, nobody ever has one again: nobody takes over and nobody can join. */
  lemma {:induction false} NoHostForever(ss: seq<State>, steps: seq<Step>, i: nat, j: nat)
    requires Run(ss, steps) && i <= j < |ss|
    requires forall x :: x in ss[i].live ==> Orphan(ss[i], x)
    ensures ss[j].live.Keys <= ss[i].live.Keys && ss[j].nextId == ss[i].nextId
    ensures forall x :: x in ss[j].live ==> Orphan(ss[j], x)
    decreases j - i
  {
    if i < j {
      NoHostForever(ss, steps, i, j - 1);
      assert Takes(ss, steps, j - 1);
      RunInv(ss, steps, j - 1);
      forall x | x in ss[j].live ensures x in ss[j - 1].live && Orphan(ss[j], x) {
        StepOrphan(ss[j - 1], steps[j - 1], x);
      }
    }
  }

  /** Exactly when reading of its host's departure leaves an end without a host for good: its roster has
      nobody to pick, or picks an end that has left and whose departure it is not yet to read of. */
  lemma OrphanedExactly(ss: seq<State>, steps: seq<Step>, i: nat)
    requires Run(ss, steps) && i < |steps| && steps[i].DoRead? && steps[i].x in ss[i].live && Bereaved(ss[i].live[steps[i].x])
    ensures steps[i].x in ss[i + 1].live
    ensures
      var e := ss[i].live[steps[i].x];
      var pick := Elected(steps[i].order, e.roster - {e.hostId});
      Orphan(ss[i + 1], steps[i].x) <==>
        pick == 0 || (HasLeft(ss[i], pick) && Left(pick) !in e.inbox)
  {
    assert Takes(ss, steps, i);
    RunInv(ss, steps, i);
    var e := ss[i].live[steps[i].x];
    assert EndOk(ss[i], steps[i].x, e) && EventOk(ss[i], e.inbox[0]);
    ElectedInside(steps[i].order, e.roster - {e.hostId});
  }
}
