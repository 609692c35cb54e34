/** The client of a session, as the object whose methods update its fields. Every method is tied to
    the functions on ends that the session's results are about. */
module SessionClient {
  import opened Wire
  import opened Ends

  /** What an end's frame handling leads to once it is through with the frame: its writes are done, it
      has switched to a new key, and what it decided on is committed. */
  function Finished(e: End): End {
    if e.swapTo.Some? then Swapped(e).(writing := [])
    else if e.commit.Some? then Committed(e)
    else e.(writing := [])
  }

  /** The joiner's handshake over a sequence of frames; it stops at the first grant. */
  function Handshake(v: KeyView, frames: seq<Frame>): KeyView
    decreases |frames|
  {
    if frames == [] || v.keyed || v.failed then v
    else Handshake(HandshakeStep(v, frames[0]), frames[1..])
  }

  function HandshakeStep(v: KeyView, f: Frame): KeyView {
    match f
    case SessionClosed(_) => v.(failed := true)
    case Direct(from, _, p) => if from == v.hostId then AbsorbJoining(v, p) else v
    case _ => v
  }

  /** One step of the handshake is what reading a frame does to an end that is not keyed. */
  lemma HandshakeIsReceive(e: End, f: Frame, minted: nat, y: nat, role: Role, outs: seq<(Id, Payload)>)
    requires !e.v.keyed && !e.v.failed
    ensures Receive(e, f, minted, y, role, outs).v == HandshakeStep(e.v, f)
  {
  }

  // ----- When a handshake succeeds -----

  predicate FromHost(v: KeyView, f: Frame) {
    f.Direct? && f.from == v.hostId
  }

  /** A grant of the host's, or the end of the session: the handshake goes no further. */
  predicate Decisive(v: KeyView, f: Frame) {
    f.SessionClosed? || (FromHost(v, f) && f.payload.KeyGrant?)
  }

  predicate IsReply(v: KeyView, f: Frame) {
    FromHost(v, f) && f.payload.Pake2?
  }

  /** Frame `m` is the last reply of the host's before frame `n`. */
  ghost predicate LastReply(v: KeyView, frames: seq<Frame>, m: nat, n: nat) {
    m < n <= |frames| && IsReply(v, frames[m]) && forall i :: m < i < n ==> !IsReply(v, frames[i])
  }

  /** Frame `n` is the first that decides, and is a grant under the pairwise key of the last reply before it. */
  ghost predicate GrantedAt(v: KeyView, frames: seq<Frame>, m: nat, n: nat) {
    && n < |frames| && Decisive(v, frames[n]) && frames[n].Direct? && (forall i :: 0 <= i < n ==> !Decisive(v, frames[i]))
    && LastReply(v, frames, m, n)
    && frames[n].payload.wrap.under == DerivePair(v.joinNonce, frames[m].payload.y, v.self, v.hostId)
    && frames[n].payload.wrap.to == v.self
  }

  /** The pairwise key after the first `n` frames, none of which decides. */
  function PairAfter(v: KeyView, frames: seq<Frame>, n: nat): Option<PairKey>
    requires n <= |frames|
  {
    if n == 0 then v.joinPair
    else if IsReply(v, frames[n - 1]) then Some(DerivePair(v.joinNonce, frames[n - 1].payload.y, v.self, v.hostId))
    else PairAfter(v, frames, n - 1)
  }

  lemma {:induction false} HandshakeGoesOn(v: KeyView, frames: seq<Frame>, n: nat)
    requires n <= |frames| && !v.keyed && !v.failed && forall i :: 0 <= i < n ==> !Decisive(v, frames[i])
    ensures Handshake(v, frames) == Handshake(v.(joinPair := PairAfter(v, frames, n)), frames[n..])
  {
    if n == 0 {
      assert frames[0..] == frames && v.(joinPair := v.joinPair) == v;
    } else {
      HandshakeGoesOn(v, frames, n - 1);
      var u, rest := v.(joinPair := PairAfter(v, frames, n - 1)), frames[n - 1..];
      assert rest[0] == frames[n - 1] && rest[1..] == frames[n..];
      assert !Decisive(v, frames[n - 1]);
      assert HandshakeStep(u, rest[0]) == v.(joinPair := PairAfter(v, frames, n));
    }
  }

  lemma {:induction false} PairIsLastReply(v: KeyView, frames: seq<Frame>, n: nat) returns (m: nat)
    requires n <= |frames| && v.joinPair == None
    ensures PairAfter(v, frames, n).Some? ==>
      LastReply(v, frames, m, n) && PairAfter(v, frames, n) == Some(DerivePair(v.joinNonce, frames[m].payload.y, v.self, v.hostId))
    ensures PairAfter(v, frames, n) == None ==> forall k: nat :: !LastReply(v, frames, k, n)
  {
    if n == 0 {
      m := 0;
    } else if IsReply(v, frames[n - 1]) {
      m := n - 1;
    } else {
      m := PairIsLastReply(v, frames, n - 1);
      assert forall k: nat :: LastReply(v, frames, k, n) ==> LastReply(v, frames, k, n - 1);
    }
  }

  lemma {:induction false} FirstDecisive(v: KeyView, frames: seq<Frame>) returns (n: nat)
    ensures n <= |frames| && (forall i :: 0 <= i < n ==> !Decisive(v, frames[i])) && (n < |frames| ==> Decisive(v, frames[n]))
  {
    n := 0;
    while n < |frames| && !Decisive(v, frames[n])
      invariant n <= |frames| && forall i :: 0 <= i < n ==> !Decisive(v, frames[i])
    {
      n := n + 1;
    }
  }

  /** A joiner is keyed by a sequence of frames if and only if the first grant of its host's, with no end of
      the session before it, is wrapped for the joiner under the pairwise key of the host's last reply
      before it; and then with the key and role in that grant. */
  lemma HandshakeExactly(v: KeyView, frames: seq<Frame>)
    requires !v.keyed && !v.failed && v.joinPair == None
    ensures Handshake(v, frames).keyed <==> exists m: nat, n: nat :: GrantedAt(v, frames, m, n)
    ensures forall m: nat, n: nat :: GrantedAt(v, frames, m, n) ==>
      Handshake(v, frames).groupKey == frames[n].payload.wrap.key && Handshake(v, frames).role == frames[n].payload.wrap.role
  {
    var n := FirstDecisive(v, frames);
    HandshakeGoesOn(v, frames, n);
    var m := PairIsLastReply(v, frames, n);
    var u, rest := v.(joinPair := PairAfter(v, frames, n)), frames[n..];
    assert forall k: nat, l: nat :: GrantedAt(v, frames, k, l) ==> l == n && LastReply(v, frames, k, n);
    assert forall k: nat :: LastReply(v, frames, k, n) ==> PairAfter(v, frames, n).Some?;
    OneLastReply(v, frames, m, n);
    if n < |frames| {
      assert rest[0] == frames[n];
      assert Handshake(u, rest) == HandshakeStep(u, frames[n]);
      if HandshakeStep(u, frames[n]).keyed { assert GrantedAt(v, frames, m, n); }
    }
  }

  lemma OneLastReply(v: KeyView, frames: seq<Frame>, m: nat, n: nat)
    ensures LastReply(v, frames, m, n) ==> forall k: nat :: LastReply(v, frames, k, n) ==> k == m
  {
  }

  class Client {
    const self: Id
    var hostId: Id
    var role: Role
    var keyed: bool
    var groupKey: GroupKey
    var prevKeys: seq<GroupKey>
    var hostPair: Option<PairKey>
    var rekeyNonce: Option<nat>
    var pairwise: map<Id, PairKey>
    var joiners: map<Id, Role>
    /** The Direct frames handed to the connection, in order. */
    var written: seq<(Id, Payload)>
    ghost var installed: seq<GroupKey>

    ghost function View(): KeyView
      reads this
    {
      KeyView(self, hostId, role, keyed, false, groupKey, prevKeys, hostPair, 0, None, rekeyNonce, installed)
    }

    ghost function AsEnd(): End
      reads this
    {
      End(View(), pairwise, joiners, [], None, None, None, NO_HISTORY)
    }

    ghost predicate Valid()
      reads this
    {
      RingOk(View())
    }

    /** This object is `e`, done with its frame, with its writes appended to what had been written. */
    ghost predicate Became(e: End, before: seq<(Id, Payload)>)
      reads this
    {
      View() == Finished(e).v && pairwise == e.pairwise && joiners == e.joiners && written == before + e.writing
    }

    /** The creator: it has an id and mints the first group key. */
    constructor Host(self: Id, key: GroupKey)
      ensures Valid() && this.self == self
      ensures View() == Creator(self, key).v && pairwise == map[] && joiners == map[] && written == []
    {
      this.self, hostId, role, keyed, groupKey, prevKeys := self, self, ROLE_HOST, true, key, [];
      hostPair, rekeyNonce, pairwise, joiners, written, installed := None, None, map[], map[], [], [key];
    }

    /** A joiner: it knows the host the relay named, and has sent its first flight. */
    constructor Join(self: Id, host: Id, x: nat, observer: bool)
      ensures Valid() && this.self == self
      ensures View() == Joiner(self, host, x).v.(joinNonce := 0) && pairwise == map[] && joiners == map[]
      ensures written == [(host, Pake1(x, observer))]
    {
      this.self, hostId, role, keyed, groupKey, prevKeys := self, host, ROLE_NONE, false, 0, [];
      hostPair, rekeyNonce, pairwise, joiners, installed := None, None, map[], map[], [];
      written := [(host, Pake1(x, observer))];
    }

    // ----- Keys -----

    method PushPrevKey(superseded: GroupKey)
      modifies this`prevKeys
      ensures prevKeys == PushPrev(old(prevKeys), superseded)
    {
      prevKeys := [superseded] + prevKeys;
      if |prevKeys| > PREV_KEY_RING {
        prevKeys := prevKeys[..PREV_KEY_RING];
      }
    }

    method InstallKey(key: GroupKey)
      requires Valid() && keyed
      modifies this`prevKeys, this`groupKey, this`installed
      ensures Valid() && View() == Install(old(View()), key)
    {
      InstallKeepsRing(View(), key);
      PushPrevKey(groupKey);
      groupKey := key;
      installed := installed + [key];
    }

    /** Seals under the key installed last, for this end as the sender; refused before there is a key. */
    method Seal() returns (p: Option<Payload>)
      requires Valid()
      ensures p == if installed == [] then None else Some(Sealed(installed[|installed| - 1], self))
    {
      if !keyed { return None; }
      var key := groupKey;
      return Some(Sealed(key, self));
    }

    /** Tries the current key and then the superseded ones, newest first; a frame opens for the sender
        it was sealed for and for no other. */
    method OpenFrame(key: GroupKey, sealer: Id, sender: Id) returns (ok: bool)
      requires Valid()
      ensures ok <==> key in LastNine(installed) && sealer == sender
    {
      OpensExactly(View(), key);
      if !keyed { return false; }
      var keys := [groupKey] + prevKeys;
      for i := 0 to |keys|
        invariant !(key in keys[..i] && sealer == sender)
      {
        if keys[i] == key && sealer == sender { return true; }
      }
      return false;
    }

    // ----- The host's duties -----

    /** A fresh key wrapped to everybody with a pairwise key, in any order. */
    method WrapForAll(newKey: GroupKey) returns (made: seq<(Id, Payload)>)
      ensures Covers(made, pairwise, newKey)
    {
      var todo := pairwise.Keys;
      made := [];
      while todo != {}
        invariant todo <= pairwise.Keys
        invariant Rewraps(made, pairwise, newKey)
        invariant forall id :: id in pairwise ==> (id in todo <==> RekeyFor(pairwise, newKey, id) !in made)
        decreases |todo|
      {
        var id :| id in todo;
        assert RekeyFor(pairwise, newKey, id) !in made;
        made := made + [RekeyFor(pairwise, newKey, id)];
        todo := todo - {id};
      }
    }

    /** Re-wraps a fresh key to everybody with a pairwise key, and only then switches to it. */
    method RekeyAfterLeave(newKey: GroupKey) returns (ghost outs: seq<(Id, Payload)>)
      requires Valid() && (role == ROLE_HOST ==> keyed)
      modifies this`prevKeys, this`groupKey, this`installed, this`written
      ensures Valid()
      ensures if IsHost(old(AsEnd())) && pairwise.Keys != {} then
          && Covers(outs, pairwise, newKey)
          && written == old(written) + outs && View() == Install(old(View()), newKey)
        else View() == old(View()) && written == old(written)
    {
      outs := [];
      if role != ROLE_HOST || hostId != self || |pairwise| == 0 { return; }
      var made := WrapForAll(newKey);
      outs := made;
      for i := 0 to |made|
        invariant written == old(written) + made[..i]
        invariant View() == old(View())
      {
        written := written + [made[i]];
      }
      assert made[..|made|] == made;
      InstallKey(newKey);
    }

    /** A departure: the id is forgotten, and the key rotated if there is anybody to re-wrap it to. */
    method HandleLeft(who: Id, newKey: GroupKey) returns (ghost outs: seq<(Id, Payload)>)
      requires Valid() && keyed
      modifies this`pairwise, this`joiners, this`written, this`prevKeys, this`groupKey, this`installed
      ensures Valid() && (Rotates(old(AsEnd()), ParticipantLeft(who)) ==> Covers(outs, old(pairwise) - {who}, newKey))
      ensures Became(Ends.HandleLeft(old(AsEnd()), who, newKey, outs), old(written))
    {
      joiners := joiners - {who};
      pairwise := pairwise - {who};
      outs := RekeyAfterLeave(newKey);
    }

    /** A joiner's first flight: answered by the host, with the role its policy says. */
    method HandleHandshakeDirect(from: Id, x: nat, y: nat, policy: Role)
      modifies this`pairwise, this`joiners, this`written
      ensures Became(HandlePayload(old(AsEnd()), from, Pake1(x, false), y, policy), old(written))
    {
      if role != ROLE_HOST { return; }
      var pair := DerivePair(x, y, from, self);
      var granted := policy;
      if granted == ROLE_NONE || granted == ROLE_HOST { granted := ROLE_MEMBER; }
      joiners := joiners[from := granted];
      pairwise := pairwise[from := pair];
      var key := groupKey;
      written := written + [(from, Pake2(y))];
      written := written + [(from, KeyGrant(Wrap(pair, key, granted, from)))];
    }

    /** A survivor's first flight to the promoted host. */
    method HandleRekeyPake1(from: Id, x: nat, y: nat)
      modifies this`pairwise, this`written
      ensures Became(HandlePayload(old(AsEnd()), from, RekeyPake1(x), y, ROLE_NONE), old(written))
    {
      if role != ROLE_HOST || hostId != self { return; }
      var pair := DerivePair(x, y, from, self);
      pairwise := pairwise[from := pair];
      var key := groupKey;
      written := written + [(from, RekeyPake2(y))];
      written := written + [(from, Rekey(Wrap(pair, key, ROLE_NONE, from)))];
    }

    // ----- The member's side -----

    /** The first locked section: whether this reply is waited for, and with which nonce. */
    method CheckRekeyPake2(from: Id) returns (x: Option<nat>)
      ensures x == if from == hostId then rekeyNonce else None
    {
      if rekeyNonce == None || from != hostId { return None; }
      return rekeyNonce;
    }

    /** The second one commits whatever was derived, and drops whatever nonce is there by then. */
    method CommitRekeyPake2(pair: PairKey)
      modifies this`hostPair, this`rekeyNonce
      ensures View() == Applied(old(View()), Adopt(pair))
    {
      hostPair := Some(pair);
      rekeyNonce := None;
    }

    /** The two sections with nothing in between. */
    method HandleRekeyPake2(from: Id, y: nat)
      requires keyed
      modifies this`hostPair, this`rekeyNonce
      ensures Became(HandlePayload(old(AsEnd()), from, RekeyPake2(y), 0, ROLE_NONE), old(written))
    {
      var x := CheckRekeyPake2(from);
      if x == None { return; }
      CommitRekeyPake2(DerivePair(x.value, y, self, hostId));
    }

    /** The first locked section and the unwrapping: what there is to install, if anything. */
    method CheckRekey(from: Id, w: Wrap) returns (c: Option<Commit>)
      ensures c == if from == hostId then Decides(View(), Rekey(w)) else None
    {
      if hostPair == None || from != hostId { return None; }
      var found := Unwrap(w, hostPair.value, self);
      if found == None { return None; }
      return Some(NewKey(found.value.0, found.value.1, from));
    }

    /** The second one installs the key over whatever key is there by then. */
    method CommitRekey(key: GroupKey, granted: Role, ghost from: Id)
      requires Valid() && keyed
      modifies this`prevKeys, this`groupKey, this`installed, this`role
      ensures Valid() && View() == Applied(old(View()), NewKey(key, granted, from))
    {
      InstallKey(key);
      if granted != ROLE_NONE {
        role := granted;
      }
    }

    /** The two sections with nothing in between. */
    method HandleRekey(from: Id, w: Wrap)
      requires Valid() && keyed
      modifies this`prevKeys, this`groupKey, this`installed, this`role
      ensures Valid() && Became(HandlePayload(old(AsEnd()), from, Rekey(w), 0, ROLE_NONE), old(written))
    {
      var c := CheckRekey(from, w);
      if c == None { return; }
      CommitRekey(c.value.key, c.value.role, c.value.from);
    }

    // ----- Dispatch -----

    method HandlePayloadFrom(from: Id, p: Payload, y: nat, policy: Role) returns (frame: bool)
      requires Valid() && keyed
      modifies this`pairwise, this`joiners, this`written, this`hostPair, this`rekeyNonce,
               this`prevKeys, this`groupKey, this`installed, this`role
      ensures Valid() && Became(HandlePayload(old(AsEnd()), from, p, y, policy), old(written))
      ensures frame <==> p.Sealed? && p.sender == from && p.key in LastNine(old(installed))
    {
      frame := false;
      match p
      case Sealed(key, sealer) => frame := OpenFrame(key, sealer, from);
      case Rekey(w) => HandleRekey(from, w);
      case RekeyPake1(x) => HandleRekeyPake1(from, x, y);
      case RekeyPake2(flight) => HandleRekeyPake2(from, flight);
      case Pake1(x, _) => HandleHandshakeDirect(from, x, y, policy);
      case Pake2(_) =>
      case KeyGrant(_) =>
    }

    /** One frame from the relay, by an end that is keyed. */
    method DispatchFrame(f: Frame, newKey: GroupKey, y: nat, policy: Role)
      returns (stop: bool, delivered: bool, ghost outs: seq<(Id, Payload)>)
      requires Valid() && keyed
      modifies this`pairwise, this`joiners, this`written, this`hostPair, this`rekeyNonce,
               this`prevKeys, this`groupKey, this`installed, this`role
      ensures Valid() && (stop <==> f.SessionClosed?)
      ensures delivered <==>
        (f.Direct? || f.Broadcast?) && f.payload.Sealed? && f.payload.sender == f.from && f.payload.key in LastNine(old(installed))
      ensures Rotates(old(AsEnd()), f) ==> Covers(outs, old(pairwise) - {f.who}, newKey)
      ensures var e := Receive(old(AsEnd()), f, newKey, y, policy, outs);
        && View() == Finished(e).v && pairwise == e.pairwise && joiners == e.joiners
        && written == old(written) + e.writing
    {
      stop, delivered, outs := false, false, [];
      match f
      case ParticipantLeft(who) => outs := HandleLeft(who, newKey);
      case SessionClosed(_) => stop := true;
      case Direct(from, _, p) => delivered := HandlePayloadFrom(from, p, y, policy);
      case Broadcast(from, p) => delivered := HandlePayloadFrom(from, p, y, policy);
      case _ =>
    }

    // ----- Host migration -----

    method BecomeHost()
      modifies this`role, this`hostId
      ensures View() == Promoted(old(AsEnd())).v
    {
      role := ROLE_HOST;
      hostId := self;
    }

    method SetHostId(id: Id)
      modifies this`hostId
      ensures View() == Followed(old(AsEnd()), id).v
    {
      hostId := id;
    }

    method RotateForMigration(newKey: GroupKey)
      requires Valid() && (role == ROLE_HOST ==> keyed)
      modifies this`prevKeys, this`groupKey, this`installed, this`pairwise
      ensures Valid() && View() == RotatedForMigration(old(AsEnd()), newKey).v
      ensures pairwise == RotatedForMigration(old(AsEnd()), newKey).pairwise
    {
      if role != ROLE_HOST || hostId != self { return; }
      InstallKey(newKey);
      pairwise := map[];
    }

    method RekeyWithNewHost(x: nat)
      modifies this`rekeyNonce, this`written
      ensures if MayAsk(old(AsEnd())) then
          View() == Asked(old(AsEnd()), x).v && Asked(old(AsEnd()), x).flight == Some((hostId, x)) &&
          written == old(written) + [(hostId, RekeyPake1(x))]
        else View() == old(View()) && written == old(written)
    {
      if role == ROLE_HOST || hostId == self || !keyed { return; }
      rekeyNonce := Some(x);
      written := written + [(hostId, RekeyPake1(x))];
    }

    // ----- Joining -----

    /** Drives the handshake until keyed; an error when a step fails, the session closes or the
        connection ends first. */
    method JoinDriveHandshake(frames: seq<Frame>, x: nat) returns (ok: bool, n: nat)
      requires Valid() && !keyed
      modifies this`role, this`keyed, this`groupKey, this`hostPair, this`installed
      ensures n <= |frames| && Valid() && keyed == ok
      ensures var w := Handshake(old(View()).(joinNonce := x), frames);
        && ok == w.keyed
        && (ok ==> View() == w.(joinNonce := 0, joinPair := None))
        && (!ok ==> View() == old(View()))
    {
      ghost var v0 := View().(joinNonce := x);
      var pair: Option<PairKey> := None;
      ok, n := false, 0;
      while n < |frames|
        invariant n <= |frames| && !ok && View() == old(View())
        invariant Handshake(v0, frames) == Handshake(v0.(joinPair := pair), frames[n..])
      {
        var f := frames[n];
        ghost var v := v0.(joinPair := pair);
        assert frames[n..][0] == f && frames[n..][1..] == frames[n + 1..];
        assert Handshake(v, frames[n..]) == Handshake(HandshakeStep(v, f), frames[n + 1..]);
        n := n + 1;
        if f.SessionClosed? { return; }
        if !f.Direct? || f.from != hostId { continue; }
        match f.payload
        case Pake2(y) => pair := Some(DerivePair(x, y, self, hostId));
        case KeyGrant(w) =>
          if pair == None { return; }
          var found := Unwrap(w, pair.value, self);
          if found == None { return; }
          groupKey, role, keyed, hostPair := found.value.0, found.value.1, true, pair;
          installed, ok := [found.value.0], true;
          return;
        case _ =>
      }
    }
  }

  /** Re-wraps of `key`, at most one for each id of `pairwise`. */
  ghost predicate Rewraps(outs: seq<(Id, Payload)>, pairwise: map<Id, PairKey>, key: GroupKey) {
    && (forall i, j :: 0 <= i < j < |outs| ==> outs[i].0 != outs[j].0)
    && (forall i :: 0 <= i < |outs| ==> outs[i].0 in pairwise && outs[i] == RekeyFor(pairwise, key, outs[i].0))
  }

  // ----- Waiting for the relay's reply -----

  datatype Awaited = Reply(frame: Frame) | Refused(code: nat) | Unexpected(frame: Frame) | Lost

  /** Session traffic, which the hello skips. */
  predicate Traffic(f: Frame) {
    f.Broadcast? || f.Direct? || f.ParticipantJoined? || f.ParticipantLeft?
  }

  function Outcome(f: Frame, created: bool): Awaited {
    if (if created then f.SessionCreated? else f.JoinResult?) then Reply(f)
    else if f.Error? then Refused(f.code)
    else Unexpected(f)
  }

  /** `r` is what the first frame of `frames` that is not traffic says, and `n` the number of frames
      up to and including it. */
  ghost predicate Awaits(frames: seq<Frame>, created: bool, r: Awaited, n: nat) {
    && n <= |frames|
    && (forall i :: 0 <= i < (if r == Lost then n else n - 1) ==> Traffic(frames[i]))
    && (if r == Lost then n == |frames|
        else n > 0 && !Traffic(frames[n - 1]) && r == Outcome(frames[n - 1], created))
  }

  /** The hello consumes traffic up to the first other frame and is decided by that one. */
  method AwaitReply(frames: seq<Frame>, created: bool) returns (r: Awaited, n: nat)
    ensures Awaits(frames, created, r, n)
  {
    n := 0;
    while n < |frames|
      invariant n <= |frames|
      invariant forall i :: 0 <= i < n ==> Traffic(frames[i])
    {
      var f := frames[n];
      n := n + 1;
      if (if created then f.SessionCreated? else f.JoinResult?) { return Reply(f), n; }
      if f.Error? { return Refused(f.code), n; }
      if f.Broadcast? || f.Direct? || f.ParticipantJoined? || f.ParticipantLeft? { continue; }
      return Unexpected(f), n;
    }
    r := Lost;
  }
}
