/** One end of a session as values: its key state, what each received payload does to it, and
    the ring of superseded keys. */
module Ends {
  import opened Wire

  const PREV_KEY_RING: nat := 8

  /** The part of an end that key messages from its host act on. `joinNonce` and `joinPair` belong
      to the handshake of a joiner that is not keyed yet; `failed` says that the join returned an
      error. `installed` is a history variable: every group key ever installed, oldest first. */
  datatype KeyView = KeyView(
    self: Id,
    hostId: Id,
    role: Role,
    keyed: bool,
    failed: bool,
    groupKey: GroupKey,
    prevKeys: seq<GroupKey>,
    hostPair: Option<PairKey>,
    joinNonce: nat,
    joinPair: Option<PairKey>,
    rekeyNonce: Option<nat>,
    installed: seq<GroupKey>)

  /** History variables: what the end has seen and done.
      `seenLeft` maps each id whose departure was read to the number of keys minted by then;
      `asked` maps each host it has sent a first PAKE flight to, to the nonce of that flight, and
      `crossed` are those it asked while it was taking in the reply to an earlier flight; `got` are
      the keys it installed with the host that wrapped them; `minted` are the keys it minted;
      `answered` maps each end it has answered to the number of keys installed by then; `seat` is
      the role it was granted when it was keyed. */
  datatype History = History(
    seenLeft: map<Id, nat>,
    asked: map<Id, nat>,
    crossed: set<Id>,
    got: set<(Id, GroupKey)>,
    minted: set<GroupKey>,
    answered: map<Id, nat>,
    creator: bool,
    promoted: bool,
    seat: Role)

  /** What the read goroutine has decided on between the two locked sections of a key message: to
      derive a pairwise key from the nonce and flight it has picked up, to adopt that key, or to
      install a key it has unwrapped. */
  datatype Commit =
    | Derive(x: nat, y: nat)
    | Adopt(pair: PairKey)
    | NewKey(key: GroupKey, role: Role, from: Id)

  /** `writing` is what the read goroutine still has to write for the frame it is handling,
      `swapTo` the key it will switch to after that, and `commit` what it is about to commit.
      `flight` is a first flight the routing goroutine has recorded but not yet written. */
  datatype End = End(
    v: KeyView,
    pairwise: map<Id, PairKey>,
    joiners: map<Id, Role>,
    writing: seq<(Id, Payload)>,
    swapTo: Option<GroupKey>,
    commit: Option<Commit>,
    flight: Option<(Id, nat)>,
    hist: History)

  // ----- The ring of superseded keys -----

  function PushPrev(ring: seq<GroupKey>, superseded: GroupKey): seq<GroupKey> {
    var r := [superseded] + ring;
    if |r| > PREV_KEY_RING then r[..PREV_KEY_RING] else r
  }

  function Install(v: KeyView, key: GroupKey): KeyView {
    v.(prevKeys := PushPrev(v.prevKeys, v.groupKey), groupKey := key, installed := v.installed + [key])
  }

  function Min(a: nat, b: nat): nat {
    if a <= b then a else b
  }

  /** The newest eight of `keys`, newest first. */
  function NewestFirst(keys: seq<GroupKey>): seq<GroupKey> {
    seq(Min(|keys|, PREV_KEY_RING), i requires 0 <= i < Min(|keys|, PREV_KEY_RING) => keys[|keys| - 1 - i])
  }

  /** The current key is the last installed and the ring the newest eight before it. */
  predicate RingOk(v: KeyView) {
    if v.keyed then
      && v.installed != []
      && v.groupKey == v.installed[|v.installed| - 1]
      && v.prevKeys == NewestFirst(v.installed[..|v.installed| - 1])
    else v.installed == [] && v.prevKeys == []
  }

  lemma InstallKeepsRing(v: KeyView, key: GroupKey)
    requires RingOk(v) && v.keyed
    ensures RingOk(Install(v, key))
  {
    var w := Install(v, key);
    assert w.installed[..|w.installed| - 1] == v.installed;
    var before := v.installed[..|v.installed| - 1];
    assert w.prevKeys == NewestFirst(v.installed) by {
      forall i | 0 <= i < |NewestFirst(v.installed)| ensures w.prevKeys[i] == NewestFirst(v.installed)[i] {
        if i > 0 { assert before[|before| - i] == v.installed[|v.installed| - 1 - i]; }
      }
    }
  }

  /** The keys a received frame is tried against, in order. */
  function OpenKeys(v: KeyView): seq<GroupKey> {
    [v.groupKey] + v.prevKeys
  }

  predicate Opens(v: KeyView, key: GroupKey) {
    v.keyed && key in OpenKeys(v)
  }

  function LastNine(keys: seq<GroupKey>): seq<GroupKey> {
    if |keys| <= PREV_KEY_RING + 1 then keys else keys[|keys| - PREV_KEY_RING - 1..]
  }

  lemma OpensRecent(v: KeyView, key: GroupKey)
    requires RingOk(v) && Opens(v, key)
    ensures key in LastNine(v.installed)
  {
    var n := |v.installed|;
    LastNineAt(v.installed, n - 1);
    if key in v.prevKeys {
      var i :| 0 <= i < |v.prevKeys| && v.prevKeys[i] == key;
      assert v.installed[..n - 1][n - 2 - i] == key;
      LastNineAt(v.installed, n - 2 - i);
    }
  }

  lemma RecentOpens(v: KeyView, key: GroupKey)
    requires RingOk(v) && key in LastNine(v.installed)
    ensures Opens(v, key)
  {
    var n := |v.installed|;
    var j := LastNineIndex(v.installed, key);
    if j < n - 1 {
      assert v.prevKeys[n - 2 - j] == v.installed[..n - 1][j] == key;
    }
  }

  /** A frame opens exactly when its key is among the last nine installed. */
  lemma OpensExactly(v: KeyView, key: GroupKey)
    requires RingOk(v)
    ensures Opens(v, key) <==> key in LastNine(v.installed)
  {
    if Opens(v, key) { OpensRecent(v, key); }
    if key in LastNine(v.installed) { RecentOpens(v, key); }
  }

  lemma LastNineAt(keys: seq<GroupKey>, j: nat)
    requires |keys| - PREV_KEY_RING - 1 <= j < |keys|
    ensures keys[j] in LastNine(keys)
  {
    if |keys| > PREV_KEY_RING + 1 {
      assert LastNine(keys)[j - (|keys| - PREV_KEY_RING - 1)] == keys[j];
    }
  }

  lemma LastNineIndex(keys: seq<GroupKey>, key: GroupKey) returns (j: nat)
    requires key in LastNine(keys)
    ensures |keys| - PREV_KEY_RING - 1 <= j < |keys| && keys[j] == key
  {
    var i :| 0 <= i < |LastNine(keys)| && LastNine(keys)[i] == key;
    j := if |keys| <= PREV_KEY_RING + 1 then i else i + (|keys| - PREV_KEY_RING - 1);
  }

  // ----- Key messages from the host -----

  /** A payload from the end's host, seen by its key state. */
  function Absorb(v: KeyView, p: Payload): KeyView {
    if v.failed then v
    else if !v.keyed then AbsorbJoining(v, p)
    else
      match p
      case Rekey(w) => Rekeyed(v, w)
      case RekeyPake2(y) =>
        if v.rekeyNonce == None then v
        else v.(hostPair := Some(DerivePair(v.rekeyNonce.value, y, v.self, v.hostId)), rekeyNonce := None)
      case _ => v
  }

  /** The joiner's side of the handshake. */
  function AbsorbJoining(v: KeyView, p: Payload): KeyView {
    match p
    case Pake2(y) => v.(joinPair := Some(DerivePair(v.joinNonce, y, v.self, v.hostId)))
    case KeyGrant(w) =>
      if v.joinPair == None then v.(failed := true)
      else (
        match Unwrap(w, v.joinPair.value, v.self)
        case None => v.(failed := true)
        case Some((key, role)) =>
          v.(groupKey := key, role := role, keyed := true, hostPair := v.joinPair, installed := [key])
      )
    case _ => v
  }

  function Rekeyed(v: KeyView, w: Wrap): KeyView {
    if v.hostPair == None then v
    else
      match Unwrap(w, v.hostPair.value, v.self)
      case None => v
      case Some((key, role)) =>
        var u := Install(v, key);
        if role != ROLE_NONE then u.(role := role) else u
  }

  lemma AbsorbKeepsRing(v: KeyView, p: Payload)
    requires RingOk(v)
    ensures RingOk(Absorb(v, p))
  {
    if v.keyed && p.Rekey? && !v.failed && v.hostPair != None && Unwrap(p.wrap, v.hostPair.value, v.self) != None {
      InstallKeepsRing(v, p.wrap.key);
    }
  }

  // ----- Taking in a key message in two sections -----

  /** What a keyed end decides on when it checks a payload from its host. */
  function Decides(v: KeyView, p: Payload): Option<Commit> {
    match p
    case Rekey(w) =>
      if v.hostPair == None then None
      else (
        match Unwrap(w, v.hostPair.value, v.self)
        case None => None
        case Some((key, role)) => Some(NewKey(key, role, v.hostId))
      )
    case RekeyPake2(y) => if v.rekeyNonce == None then None else Some(Derive(v.rekeyNonce.value, y))
    case _ => None
  }

  function Applied(v: KeyView, c: Commit): KeyView {
    match c
    case Derive(x, y) => v.(hostPair := Some(DerivePair(x, y, v.self, v.hostId)), rekeyNonce := None)
    case Adopt(pair) => v.(hostPair := Some(pair), rekeyNonce := None)
    case NewKey(key, role, _) =>
      var u := Install(v, key);
      if role != ROLE_NONE then u.(role := role) else u
  }

  /** The key state the end comes to when it finishes what it has begun. */
  function Due(e: End): KeyView {
    if e.commit == None then e.v else Applied(e.v, e.commit.value)
  }

  /** Without interference the two sections are one absorption. */
  lemma DecidesAbsorb(v: KeyView, p: Payload)
    requires v.keyed && !v.failed
    ensures Absorb(v, p) == if Decides(v, p) == None then v else Applied(v, Decides(v, p).value)
  {
  }

  /** The pairwise key is derived with whatever host the end has by then. */
  function Derived(e: End): End
    requires e.commit.Some? && e.commit.value.Derive?
  {
    e.(commit := Some(Adopt(DerivePair(e.commit.value.x, e.commit.value.y, e.v.self, e.v.hostId))))
  }

  function Got(h: History, c: Commit): History {
    if c.NewKey? then h.(got := h.got + {(c.from, c.key)}) else h
  }

  /** The second section: whatever has happened since the first, it goes ahead. */
  function Committed(e: End): End
    requires e.commit.Some?
  {
    e.(v := Due(e), commit := None, hist := Got(e.hist, e.commit.value))
  }

  /** A reply to an earlier first flight is between its two sections. */
  predicate Crossing(e: End) {
    e.commit.Some? && !e.commit.value.NewKey?
  }

  // ----- Whole frames -----

  predicate IsHost(e: End) {
    e.v.role == ROLE_HOST && e.v.hostId == e.v.self
  }

  /** Does reading this frame make the end rotate the group key? */
  predicate Rotates(e: End, f: Frame) {
    e.v.keyed && f.ParticipantLeft? && IsHost(e) && (e.pairwise - {f.who}).Keys != {}
  }

  function RekeyFor(pairwise: map<Id, PairKey>, key: GroupKey, id: Id): (Id, Payload)
    requires id in pairwise
  {
    (id, Rekey(Wrap(pairwise[id], key, ROLE_NONE, id)))
  }

  /** `outs` re-wraps `key` to every end in `pairwise`, once each, in any order. */
  ghost predicate Covers(outs: seq<(Id, Payload)>, pairwise: map<Id, PairKey>, key: GroupKey) {
    && (forall i, j :: 0 <= i < j < |outs| ==> outs[i].0 != outs[j].0)
    && (forall i :: 0 <= i < |outs| ==> outs[i].0 in pairwise && outs[i] == RekeyFor(pairwise, key, outs[i].0))
    && (forall id :: id in pairwise ==> RekeyFor(pairwise, key, id) in outs)
  }

  function Clamp(role: Role): Role {
    if role == ROLE_NONE || role == ROLE_HOST then ROLE_MEMBER else role
  }

  function Answered(h: History, from: Id, count: nat): History {
    h.(answered := h.answered[from := count])
  }

  /** The host's answer to a joiner's first flight. */
  function AnswerJoin(e: End, from: Id, x: nat, y: nat, role: Role): End {
    var pair := DerivePair(x, y, from, e.v.self);
    e.(pairwise := e.pairwise[from := pair],
       joiners := e.joiners[from := Clamp(role)],
       writing := [(from, Pake2(y)), (from, KeyGrant(Wrap(pair, e.v.groupKey, Clamp(role), from)))],
       hist := Answered(e.hist, from, |e.v.installed|))
  }

  /** The promoted host's answer to a survivor's first flight; the survivor keeps its role. */
  function AnswerRekey(e: End, from: Id, x: nat, y: nat): End {
    var pair := DerivePair(x, y, from, e.v.self);
    e.(pairwise := e.pairwise[from := pair],
       writing := [(from, RekeyPake2(y)), (from, Rekey(Wrap(pair, e.v.groupKey, ROLE_NONE, from)))],
       hist := Answered(e.hist, from, |e.v.installed|))
  }

  /** An inner payload from `from`, at an end that is keyed. */
  function HandlePayload(e: End, from: Id, p: Payload, y: nat, role: Role): End {
    match p
    case Pake1(x, _) => if e.v.role == ROLE_HOST then AnswerJoin(e, from, x, y, role) else e
    case RekeyPake1(x) => if IsHost(e) then AnswerRekey(e, from, x, y) else e
    case _ => if from == e.v.hostId then e.(commit := Decides(e.v, p)) else e
  }

  /** A departure: forget the id and, as host with somebody left to re-wrap to, start rotating. */
  function HandleLeft(e: End, who: Id, minted: nat, outs: seq<(Id, Payload)>): End {
    var e' := e.(pairwise := e.pairwise - {who}, joiners := e.joiners - {who},
                 hist := e.hist.(seenLeft := if who in e.hist.seenLeft then e.hist.seenLeft
                                             else e.hist.seenLeft[who := minted]));
    if Rotates(e, ParticipantLeft(who)) then
      e'.(writing := outs, swapTo := Some(minted), hist := e'.hist.(minted := e'.hist.minted + {minted}))
    else e'
  }

  /** One frame read by the end. `minted` numbers the next fresh group key, `y` is the host's fresh
      PAKE nonce, `role` what the role policy says, and `outs` the order of the re-wraps. */
  function Receive(e: End, f: Frame, minted: nat, y: nat, role: Role, outs: seq<(Id, Payload)>): End {
    if e.v.failed then e
    else if !e.v.keyed then
      (match f
       case Direct(from, _, p) =>
         if from != e.v.hostId then e
         else
           var v := Absorb(e.v, p);
           e.(v := v, hist := if v.keyed then e.hist.(seat := v.role, got := {(from, v.groupKey)}) else e.hist)
       case SessionClosed(_) => e.(v := e.v.(failed := true))
       case _ => e)
    else
      match f
      case ParticipantLeft(who) => HandleLeft(e, who, minted, outs)
      case Direct(from, _, p) => HandlePayload(e, from, p, y, role)
      case Broadcast(from, p) => HandlePayload(e, from, p, y, role)
      case _ => e
  }

  lemma LeftHistory(e: End, who: Id, minted: nat, outs: seq<(Id, Payload)>)
    ensures var e' := HandleLeft(e, who, minted, outs);
      && e'.hist.asked == e.hist.asked && e'.hist.crossed == e.hist.crossed && e'.flight == e.flight && e'.v == e.v
      && e'.hist.minted == (if Rotates(e, ParticipantLeft(who)) then e.hist.minted + {minted} else e.hist.minted)
      && (if Rotates(e, ParticipantLeft(who)) then e'.swapTo == Some(minted) else e'.swapTo == e.swapTo)
  {
  }

  lemma PayloadHistory(e: End, from: Id, p: Payload, y: nat, role: Role)
    ensures var e' := HandlePayload(e, from, p, y, role);
      && e'.hist.asked == e.hist.asked && e'.hist.crossed == e.hist.crossed && e'.flight == e.flight && e'.v == e.v
      && e'.hist.minted == e.hist.minted && e'.swapTo == e.swapTo
  {
  }

  /** What reading a frame leaves alone, and what it mints. */
  lemma ReceiveHistory(e: End, f: Frame, minted: nat, y: nat, role: Role, outs: seq<(Id, Payload)>)
    ensures var e' := Receive(e, f, minted, y, role, outs);
      && e'.hist.asked == e.hist.asked && e'.hist.crossed == e.hist.crossed && e'.flight == e.flight
      && e'.hist.minted == (if !e.v.failed && Rotates(e, f) then e.hist.minted + {minted} else e.hist.minted)
      && (if !e.v.failed && Rotates(e, f) then e'.swapTo == Some(minted) else e'.swapTo == e.swapTo)
      && (e.v.keyed ==> e'.v == e.v)
  {
    if !e.v.failed && e.v.keyed {
      match f
      case ParticipantLeft(who) => LeftHistory(e, who, minted, outs);
      case Direct(from, _, p) => PayloadHistory(e, from, p, y, role);
      case Broadcast(from, p) => PayloadHistory(e, from, p, y, role);
      case _ =>
    }
  }

  // ----- Host migration -----

  /** Nothing left to write or to switch to. */
  predicate Quiet(e: End) {
    e.writing == [] && e.swapTo == None
  }

  /** The read goroutine is between two frames. */
  predicate Idle(e: End) {
    Quiet(e) && e.commit == None
  }

  function Swapped(e: End): End
    requires e.swapTo.Some?
  {
    e.(v := Install(e.v, e.swapTo.value), swapTo := None)
  }

  function Promoted(e: End): End {
    e.(v := e.v.(role := ROLE_HOST, hostId := e.v.self), hist := e.hist.(promoted := true))
  }

  function Followed(e: End, host: Id): End {
    e.(v := e.v.(hostId := host))
  }

  function RotatedForMigration(e: End, key: GroupKey): End {
    if !IsHost(e) then e
    else e.(v := Install(e.v, key), pairwise := map[], hist := e.hist.(minted := e.hist.minted + {key}))
  }

  predicate MayAsk(e: End) {
    e.v.role != ROLE_HOST && e.v.hostId != e.v.self && e.v.keyed
  }

  /** A first flight is recorded; it goes out in a step of its own. */
  function Asked(e: End, x: nat): End {
    var h := e.v.hostId;
    e.(v := e.v.(rekeyNonce := Some(x)), flight := Some((h, x)),
       hist := e.hist.(asked := e.hist.asked[h := x],
                       crossed := if Crossing(e) then e.hist.crossed + {h} else e.hist.crossed))
  }

  // ----- New ends -----

  const NO_HISTORY := History(map[], map[], {}, {}, {}, map[], false, false, ROLE_NONE)

  function Creator(self: Id, key: GroupKey): End {
    End(KeyView(self, self, ROLE_HOST, true, false, key, [], None, 0, None, None, [key]),
        map[], map[], [], None, None, None, NO_HISTORY.(minted := {key}, creator := true))
  }

  function Joiner(self: Id, host: Id, x: nat): End {
    End(KeyView(self, host, ROLE_NONE, false, false, 0, [], None, x, None, None, []),
        map[], map[], [], None, None, None, NO_HISTORY.(asked := map[host := x]))
  }
}
