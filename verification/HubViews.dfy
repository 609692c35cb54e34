/** Membership views: in every run, what a participant's connection delivers replays to the
    hub's own client set. */
module HubViews {
  import opened Wire
  import opened HubSpec

  // ----- The invariant -----

  predicate IsHello(f: Frame) {
    f.SessionCreated? || f.JoinResult?
  }

  predicate Notifies(f: Frame, x: Id) {
    f == ParticipantJoined(x) || f == ParticipantLeft(x)
  }

  /** `evict` lists exactly the clients marked evicting, each once. */
  ghost predicate EvictOk(s: HubState) {
    && (forall i, j :: 0 <= i < j < |s.evict| ==> s.evict[i] != s.evict[j])
    && (forall id :: id in s.evict <==> id in s.clients && s.clients[id].evicting)
  }

  /** What a frame buffered for slot `id` can be: no hello, and no notice about `id` itself, about
      an id not yet issued, or of the departure of someone still present. */
  predicate BufferedFrame(s: HubState, id: Id, f: Frame) {
    && !IsHello(f)
    && (f.ParticipantJoined? ==> f.who < s.nextId && f.who != id)
    && (f.ParticipantLeft? ==> f.who < s.nextId && f.who != id && f.who !in s.clients)
  }

  /** Nothing is said about an id after its departure. */
  predicate DepartsOnce(fs: seq<Frame>) {
    forall i, j :: 0 <= i < j < |fs| && fs[i].ParticipantLeft? ==> !Notifies(fs[j], fs[i].who)
  }

  /** Frames buffered for a held slot replay to nothing new over any later peer list. */
  ghost predicate BufferOk(s: HubState, id: Id, c: Client) {
    && c.phantom == {}
    && (forall i :: 0 <= i < |c.stream| ==> BufferedFrame(s, id, c.stream[i]))
    && DepartsOnce(c.stream)
    && Replay(PeersExcept(s, id), c.stream) == PeersExcept(s, id)
  }

  /** The view a live connection's stream must replay to. A creator is told of nobody, so it
      misses exactly those who were already there, and they have smaller ids. */
  ghost function ExpectedView(s: HubState, id: Id, c: Client): set<Id>
    requires c.stream != []
  {
    if c.stream[0].SessionCreated? then set y | y in s.clients && y > id
    else PeersExcept(s, id) + c.phantom
  }

  ghost predicate ReplyFirst(id: Id, c: Client) {
    && c.stream != []
    && IsHello(c.stream[0]) && c.stream[0].id == id && c.stream[0].token == c.token
    && (forall i :: 0 < i < |c.stream| ==> !IsHello(c.stream[i]))
  }

  ghost predicate LiveOk(s: HubState, id: Id, c: Client) {
    && ReplyFirst(id, c)
    && c.phantom !! s.clients.Keys
    && (forall x :: x in c.phantom ==> x < s.nextId)
    && (c.stream[0].SessionCreated? ==> c.phantom == {})
    && View(c.stream) == ExpectedView(s, id, c)
  }

  ghost predicate SlotOk(s: HubState, id: Id)
    requires id in s.clients
  {
    var c := s.clients[id];
    ChannelOk(c) && (!c.evicting ==> if c.held then BufferOk(s, id, c) else LiveOk(s, id, c))
  }

  /** What holds at every point inside a command. */
  ghost predicate Mid(s: HubState) {
    && EvictOk(s)
    && (forall id :: id in s.clients ==> 1 <= id < s.nextId)
    && (forall id {:trigger SlotOk(s, id)} :: id in s.clients ==> SlotOk(s, id))
  }

  /** What holds between commands. */
  ghost predicate Boundary(s: HubState) {
    !s.over ==> Mid(s) && s.evict == [] && 1 <= s.nextId
  }

  // ----- Replay -----

  lemma {:induction false} ReplayAppend(base: set<Id>, fs: seq<Frame>, f: Frame)
    ensures Replay(base, fs + [f]) == Heed(Replay(base, fs), f)
  {
    assert (fs + [f])[..|fs|] == fs;
  }

  lemma {:induction false} ReplayLocal(base: set<Id>, fs: seq<Frame>, gs: seq<Frame>)
    requires fs <= gs
    requires forall i :: |fs| <= i < |gs| ==> IsLocalReply(gs[i])
    ensures Replay(base, gs) == Replay(base, fs)
    decreases |gs|
  {
    if |gs| == |fs| {
      assert gs == fs;
    } else {
      ReplayLocal(base, fs, gs[..|gs| - 1]);
    }
  }

  lemma {:induction false} ReplayAdd(base: set<Id>, fs: seq<Frame>, y: Id)
    requires forall i :: 0 <= i < |fs| ==> !IsHello(fs[i]) && !Notifies(fs[i], y)
    ensures Replay(base + {y}, fs) == Replay(base, fs) + {y}
  {
    if fs != [] {
      ReplayAdd(base, fs[..|fs| - 1], y);
    }
  }

  lemma {:induction false} ReplayDrop(base: set<Id>, fs: seq<Frame>, y: Id)
    requires forall i :: 0 <= i < |fs| ==> !IsHello(fs[i])
    ensures Replay(base - {y}, fs) - {y} == Replay(base, fs) - {y}
  {
    if fs != [] {
      var n := |fs| - 1;
      ReplayDrop(base, fs[..n], y);
      HeedApart(Replay(base - {y}, fs[..n]), Replay(base, fs[..n]), fs[n], y);
    }
  }

  lemma HeedApart(v: set<Id>, w: set<Id>, f: Frame, y: Id)
    requires v - {y} == w - {y}
    ensures Heed(v, f) - {y} == Heed(w, f) - {y}
  {
    forall z | z != y ensures z in v <==> z in w {
      assert z in v - {y} <==> z in w - {y};
    }
  }

  /** A hello frame resets the view: what follows replays over its peer list. */
  lemma {:induction false} ReplayAfterHello(base: set<Id>, hello: Frame, fs: seq<Frame>)
    requires IsHello(hello)
    ensures Replay(base, [hello] + fs) == Replay(Heed(base, hello), fs)
  {
    if fs == [] {
      ReplayAppend(base, [], hello);
      assert [hello] + fs == [] + [hello];
    } else {
      var n := |fs| - 1;
      assert ([hello] + fs)[..|fs|] == [hello] + fs[..n];
      ReplayAfterHello(base, hello, fs[..n]);
    }
  }

  lemma {:induction false} ReplayKeepsMembers(base: set<Id>, fs: seq<Frame>)
    requires forall i :: 0 <= i < |fs| ==> !IsHello(fs[i])
    requires forall i :: 0 <= i < |fs| && fs[i].ParticipantLeft? ==> fs[i].who !in base
    ensures base <= Replay(base, fs)
  {
    if fs != [] {
      ReplayKeepsMembers(base, fs[..|fs| - 1]);
    }
  }

  // ----- One frame offered to one client -----

  /** An accepted frame is the last of the stream, after possible local replies. */
  lemma OfferAccepted(c: Client, f: Frame, c': Client, concurrent: bool)
    requires ChannelOk(c) && Queued(c, f, c', concurrent) && !c'.evicting
    ensures ChannelOk(c') && !c.evicting
    ensures c' == c.(stream := c'.stream, taken := c'.taken)
    ensures |c'.stream| > |c.stream| && c.stream <= c'.stream && c'.stream[|c'.stream| - 1] == f
    ensures forall i :: |c.stream| <= i < |c'.stream| - 1 ==> IsLocalReply(c'.stream[i])
    ensures c.held ==> c'.stream == c.stream + [f]
    ensures forall base :: Replay(base, c'.stream) == Heed(Replay(base, c.stream), f)
  {
    var d :| Drift(c, d, concurrent) && c' == Offered(d, f);
    forall base ensures Replay(base, c'.stream) == Heed(Replay(base, c.stream), f) {
      ReplayLocal(base, c.stream, d.stream);
      ReplayAppend(base, d.stream, f);
    }
  }

  lemma OfferChannel(c: Client, f: Frame, c': Client, concurrent: bool)
    requires ChannelOk(c) && Queued(c, f, c', concurrent)
    ensures ChannelOk(c')
    ensures c' == c.(stream := c'.stream, taken := c'.taken, evicting := c'.evicting)
    ensures c.evicting ==> c'.evicting
  {
  }

  /** How the client set stands to the one the previous notices described. */
  datatype Change = Same | Came(id: Id) | Went(id: Id)

  predicate Carries(f: Frame, ch: Change) {
    match ch
    case Same => !IsHello(f) && !f.ParticipantJoined? && !f.ParticipantLeft?
    case Came(y) => f == ParticipantJoined(y)
    case Went(y) => f == ParticipantLeft(y)
  }

  /** `s` is the state the slot invariant held in; `t` the one whose client set `f` announces. */
  predicate Changed(s: HubState, ch: Change, t: HubState) {
    match ch
    case Same => t.clients.Keys == s.clients.Keys && t.nextId == s.nextId
    case Came(y) => y == s.nextId && t.clients.Keys == s.clients.Keys + {y} && t.nextId == y + 1
    case Went(y) => y in s.clients && t.clients.Keys == s.clients.Keys - {y} && t.nextId == s.nextId
  }

  lemma BufferStep(s: HubState, id: Id, c: Client, f: Frame, ch: Change, t: HubState)
    requires BufferOk(s, id, c) && Changed(s, ch, t) && Carries(f, ch)
    requires id in s.clients && id in t.clients && id < s.nextId
    requires forall x :: x in s.clients ==> x < s.nextId
    ensures BufferOk(t, id, c.(stream := c.stream + [f]))
  {
    forall i | 0 <= i < |c.stream + [f]| ensures BufferedFrame(t, id, (c.stream + [f])[i]) {
      if i < |c.stream| {
        assert BufferedFrame(s, id, c.stream[i]);
      }
    }
    forall i | 0 <= i < |c.stream| && c.stream[i].ParticipantLeft? ensures !Notifies(f, c.stream[i].who) {
      assert BufferedFrame(s, id, c.stream[i]);
    }
    assert DepartsOnce(c.stream + [f]);
    BufferReplay(s, id, c.stream, f, ch, t);
  }

  lemma BufferReplay(s: HubState, id: Id, fs: seq<Frame>, f: Frame, ch: Change, t: HubState)
    requires Changed(s, ch, t) && Carries(f, ch) && id < s.nextId && id in t.clients
    requires forall i :: 0 <= i < |fs| ==> BufferedFrame(s, id, fs[i])
    requires Replay(PeersExcept(s, id), fs) == PeersExcept(s, id)
    ensures Replay(PeersExcept(t, id), fs + [f]) == PeersExcept(t, id)
  {
    var k := PeersExcept(s, id);
    ReplayAppend(PeersExcept(t, id), fs, f);
    match ch {
      case Same =>
        assert PeersExcept(t, id) == k;
      case Came(y) =>
        assert PeersExcept(t, id) == k + {y};
        ReplayAdd(k, fs, y);
      case Went(y) =>
        assert PeersExcept(t, id) == k - {y};
        ReplayDrop(k, fs, y);
    }
  }

  lemma LiveStep(s: HubState, id: Id, c: Client, f: Frame, ch: Change, t: HubState, c': Client)
    requires LiveOk(s, id, c) && Changed(s, ch, t) && Carries(f, ch)
    requires id in s.clients && id in t.clients && id < s.nextId
    requires c' == c.(stream := c'.stream, taken := c'.taken)
    requires c.stream <= c'.stream && |c'.stream| > |c.stream| && c'.stream[|c'.stream| - 1] == f
    requires forall i :: |c.stream| <= i < |c'.stream| - 1 ==> IsLocalReply(c'.stream[i])
    requires View(c'.stream) == Heed(View(c.stream), f)
    ensures LiveOk(t, id, c')
  {
    assert c'.stream[0] == c.stream[0];
    assert View(c'.stream) == ExpectedView(t, id, c');
  }

  /** Announcing the change to every remaining client restores the slot invariant. */
  lemma BroadcastKeeps(s: HubState, ch: Change, t: HubState, f: Frame, except: Id, t': HubState, concurrent: bool)
    requires BroadcastStep(t, f, except, t', concurrent) && Changed(s, ch, t) && Carries(f, ch)
    requires forall x :: x in s.clients ==> x < s.nextId
    requires EvictOk(t)
    requires forall id :: id in t.clients && id != except ==>
               id in s.clients && t.clients[id] == s.clients[id] && SlotOk(s, id)
    requires except in t.clients ==> SlotOk(t, except)
    requires forall id :: id in t.clients ==> 1 <= id < t.nextId
    ensures Mid(t')
  {
    BroadcastMarks(t, f, except, t', concurrent);
    EvictGrows(t, t');
    forall id | id in t'.clients ensures SlotOk(t', id) {
      assert Fanned(t, f, except, t', id, concurrent);
      if id == except {
        SlotSameKeys(t, t', id);
      } else {
        OfferKeepsSlot(s, ch, t, f, id, t', concurrent);
      }
    }
  }

  lemma OfferKeepsSlot(s: HubState, ch: Change, t: HubState, f: Frame, id: Id, t': HubState, concurrent: bool)
    requires Changed(s, ch, t) && Carries(f, ch)
    requires t'.clients.Keys == t.clients.Keys && t'.nextId == t.nextId
    requires id in t.clients && id in s.clients && t.clients[id] == s.clients[id] && SlotOk(s, id)
    requires Queued(t.clients[id], f, t'.clients[id], concurrent)
    requires forall x :: x in s.clients ==> x < s.nextId
    ensures SlotOk(t', id)
  {
    var c, c' := t.clients[id], t'.clients[id];
    OfferChannel(c, f, c', concurrent);
    if !c'.evicting {
      OfferAccepted(c, f, c', concurrent);
      if c.held {
        BufferStep(s, id, c, f, ch, t);
        assert BufferOk(t, id, c') by {
          assert c' == c.(stream := c.stream + [f]);
        }
        BufferSameKeys(t, t', id, c');
      } else {
        LiveStep(s, id, c, f, ch, t, c');
      }
    }
  }

  lemma SlotSameKeys(t: HubState, t': HubState, id: Id)
    requires id in t.clients && SlotOk(t, id) && t'.clients.Keys == t.clients.Keys && t'.nextId == t.nextId
    requires t'.clients[id] == t.clients[id]
    ensures SlotOk(t', id)
  {
    if t.clients[id].held && !t.clients[id].evicting {
      BufferSameKeys(t, t', id, t.clients[id]);
    }
  }

  lemma BufferSameKeys(t: HubState, t': HubState, id: Id, c: Client)
    requires BufferOk(t, id, c) && t.clients.Keys == t'.clients.Keys && t.nextId == t'.nextId
    ensures BufferOk(t', id, c)
  {
    assert PeersExcept(t', id) == PeersExcept(t, id);
  }

  lemma EvictGrows(t: HubState, t': HubState)
    requires EvictOk(t) && EvictGrew(t, t') && t'.clients.Keys == t.clients.Keys
    requires forall id :: id in t.clients && t.clients[id].evicting ==> t'.clients[id].evicting
    ensures EvictOk(t')
  {
    var n := |t.evict|;
    assert t'.evict == t.evict + t'.evict[n..];
    forall id ensures id in t'.evict <==> id in t'.clients && t'.clients[id].evicting {
      if id in t'.evict[n..] {
        var i :| 0 <= i < |t'.evict[n..]| && t'.evict[n..][i] == id;
        assert NewlyEvicting(t, t', t'.evict[n + i]);
      } else if id in t'.clients && t'.clients[id].evicting {
        assert !NewlyEvicting(t, t', id);
      }
    }
    forall i, j | 0 <= i < j < |t'.evict| ensures t'.evict[i] != t'.evict[j] {
      if i < n && n <= j {
        assert t'.evict[i] in t.evict;
        assert NewlyEvicting(t, t', t'.evict[j]);
      }
    }
  }

  lemma BroadcastMarks(t: HubState, f: Frame, except: Id, t': HubState, concurrent: bool)
    requires BroadcastStep(t, f, except, t', concurrent)
    ensures forall id :: id in t.clients && t.clients[id].evicting ==> t'.clients[id].evicting
  {
    forall id | id in t.clients && t.clients[id].evicting ensures t'.clients[id].evicting {
      assert Fanned(t, f, except, t', id, concurrent);
    }
  }

  // ----- Each handler keeps the invariant -----

  lemma SendKeeps(s: HubState, to: Id, f: Frame, s': HubState, concurrent: bool)
    requires Mid(s) && SendStep(s, to, f, s', concurrent) && Carries(f, Same)
    ensures Mid(s')
  {
    if to in s.clients {
      forall id | id in s.clients ensures s.clients[id].evicting ==> s'.clients[id].evicting {
        assert Sent(s, f, to, s', id, concurrent);
      }
      EvictGrows(s, s');
      forall id | id in s'.clients ensures SlotOk(s', id) {
        assert Sent(s, f, to, s', id, concurrent);
        if id == to {
          OfferKeepsSlot(s, Same, s, f, id, s', concurrent);
        } else {
          SlotSameKeys(s, s', id);
        }
      }
    }
  }

  lemma RegisteredSlot(s: HubState, isCreate: bool, conn: ConnId, token: Token)
    requires Mid(s) && 1 <= s.nextId && s.nextId + 1 < ID_SPACE
    ensures var t := Registered(s, isCreate, conn, token);
      SlotOk(t, s.nextId) && EvictOk(t) && Changed(s, Came(s.nextId), t)
  {
    var t := Registered(s, isCreate, conn, token);
    var hello := HelloFrame(s, isCreate, s.nextId, token);
    ReplayAppend({}, [], hello);
    assert [] + [hello] == [hello];
    assert s.nextId !in s.clients;
    if !isCreate {
      assert PeersExcept(t, s.nextId) == PeersExcept(s, s.nextId);
    }
  }

  lemma JoinKeeps(s: HubState, isCreate: bool, conn: ConnId, token: Token, reply: Reply, s': HubState, concurrent: bool)
    requires Mid(s) && 1 <= s.nextId && s.nextId + 1 < ID_SPACE
    requires JoinStep(s, isCreate, conn, token, reply, s', concurrent)
    ensures Mid(s') && 1 <= s'.nextId && s'.over == s.over
  {
    if |s.clients| < s.max {
      RegisteredSlot(s, isCreate, conn, token);
      BroadcastKeeps(s, Came(s.nextId), Registered(s, isCreate, conn, token),
                     ParticipantJoined(s.nextId), s.nextId, s', concurrent);
    }
  }

  /** Removing a client, from the state in which it has just been struck off the evict list or
      was never on it. */
  lemma RemoveKeeps(s: HubState, id: Id, s': HubState, concurrent: bool)
    requires RemoveStep(s, id, s', concurrent) && id in s.clients
    requires EvictOk(s.(clients := s.clients - {id}))
    requires forall x :: x in s.clients ==> 1 <= x < s.nextId && SlotOk(s, x)
    ensures !s'.over && !s.over ==> Mid(s')
    ensures s'.nextId == s.nextId && s'.clients.Keys == s.clients.Keys - {id}
    ensures !s.over ==> (s'.over <==> s'.clients.Keys == {})
  {
    var t := Without(s, id);
    assert t.clients.Keys == s.clients.Keys - {id};
    if |s.clients - {id}| != 0 {
      assert EvictOk(t);
      BroadcastKeeps(s, Went(id), t, ParticipantLeft(id), 0, s', concurrent);
    }
  }

  lemma PopKeeps(m: HubState)
    requires Mid(m) && m.evict != []
    ensures m.evict[0] in m.clients
    ensures EvictOk(PopEvict(m).(clients := m.clients - {m.evict[0]}))
    ensures forall x :: x in m.clients ==> SlotOk(PopEvict(m), x)
  {
    var id, p := m.evict[0], PopEvict(m);
    assert id in m.evict;
    assert m.evict == [id] + p.evict;
    forall x | x in m.clients ensures SlotOk(p, x) {
      SlotSameKeys(m, p, x);
    }
  }

  lemma DrainStepKeeps(m: HubState, id: Id, s': HubState, concurrent: bool)
    requires Mid(m) && DrainStep(m, id, s', concurrent)
    ensures id in m.clients && s'.clients.Keys == m.clients.Keys - {id} && s'.nextId == m.nextId
    ensures !s'.over ==> Mid(s')
    ensures s'.over <==> s'.clients.Keys == {}
  {
    PopKeeps(m);
    RemoveKeeps(PopEvict(m), id, s', concurrent);
  }

  lemma {:induction false} DrainMid(s: HubState, t: Drops, s': HubState, concurrent: bool)
    requires Mid(s) && !s.over && DrainTrace(s, t, s', concurrent)
    ensures !s'.over ==> Mid(s')
  {
    if t.Drop? {
      DrainMid(s, t.before, t.at, concurrent);
      DrainStepKeeps(t.at, t.id, s', concurrent);
    }
  }

  lemma {:induction false} OnceCounts(t: Drops)
    requires DropsOnce(t)
    ensures |IdSet(t)| == Count(t)
  {
    if t.Drop? {
      OnceCounts(t.before);
    }
  }

  /** The drain loop removes each participant at most once, and only participants; it stops
      with the session over exactly when nobody is left. */
  lemma {:induction false} DrainRemoves(s: HubState, t: Drops, s': HubState, concurrent: bool)
    requires Mid(s) && !s.over && DrainTrace(s, t, s', concurrent)
    ensures s'.nextId == s.nextId
    ensures DropsOnce(t) && IdSet(t) <= s.clients.Keys && s'.clients.Keys == s.clients.Keys - IdSet(t)
    ensures t.Drop? ==> (s'.over <==> s'.clients.Keys == {})
  {
    if t.Drop? {
      DrainMid(s, t.before, t.at, concurrent);
      DrainRemoves(s, t.before, t.at, concurrent);
      DrainStepKeeps(t.at, t.id, s', concurrent);
    }
  }

  lemma {:induction false} NothingToDrain(m: HubState, t: Drops, s': HubState, concurrent: bool)
    requires m.evict == [] && DrainTrace(m, t, s', concurrent)
    ensures t == Start && s' == m
  {
    if t.Drop? {
      NothingToDrain(m, t.before, t.at, concurrent);
    }
  }

  lemma HoldKeeps(s: HubState, id: Id)
    requires Mid(s) && id in s.clients && !s.clients[id].evicting
    ensures Mid(HeldSlot(s, id))
  {
    var t := HeldSlot(s, id);
    assert t.clients.Keys == s.clients.Keys;
    forall x | x in t.clients ensures SlotOk(t, x) {
      if x != id {
        SlotSameKeys(s, t, x);
      }
    }
  }

  /** A resumed client's view is the peer list plus its phantoms, whatever the buffer held. */
  lemma ResumedView(s: HubState, id: Id, conn: ConnId)
    requires Mid(s) && id in s.clients && SlotOk(s, id) && !s.clients[id].evicting
    ensures var c := ResumedSlot(s, id, conn).clients[id];
      View(c.stream) == PeersExcept(s, id) + c.phantom && c.phantom !! s.clients.Keys &&
      (forall x :: x in c.phantom ==> x < s.nextId)
  {
    var c := s.clients[id];
    var kept, peers := KeptFrames(c), PeersExcept(s, id);
    assert kept <= c.stream;
    ReplayAfterHello({}, JoinResult(id, peers, s.host, c.token), kept);
    if c.held {
      assert forall i :: 0 <= i < |kept| ==> BufferedFrame(s, id, kept[i]);
      ReplayKeepsMembers(peers, kept);
      ReplayAnnounced(peers, kept, s.nextId, id);
    }
  }

  lemma {:induction false} ReplayAnnounced(base: set<Id>, fs: seq<Frame>, bound: Id, self: Id)
    requires forall i :: 0 <= i < |fs| ==> !IsHello(fs[i]) && (fs[i].ParticipantJoined? ==> fs[i].who < bound && fs[i].who != self)
    ensures forall x :: x in Replay(base, fs) && x !in base ==> x < bound && x != self
  {
    if fs != [] {
      var n := |fs| - 1;
      ReplayAnnounced(base, fs[..n], bound, self);
      forall x | x in Replay(base, fs) && x !in base ensures x < bound && x != self {
        if x !in Replay(base, fs[..n]) {
          assert fs[n] == ParticipantJoined(x);
        }
      }
    }
  }

  lemma ResumeKeeps(s: HubState, id: Id, conn: ConnId)
    requires Mid(s) && id in s.clients && SlotOk(s, id) && !s.clients[id].evicting
    ensures Mid(ResumedSlot(s, id, conn))
  {
    var t := ResumedSlot(s, id, conn);
    assert t.clients.Keys == s.clients.Keys;
    ResumedView(s, id, conn);
    forall x | x in t.clients ensures SlotOk(t, x) {
      if x != id {
        SlotSameKeys(s, t, x);
      } else {
        assert PeersExcept(t, id) == PeersExcept(s, id);
      }
    }
  }

  lemma DriftKeeps(s: HubState, s': HubState)
    requires Mid(s) && DriftStep(s, s')
    ensures Mid(s')
  {
    forall id | id in s.clients ensures SlotOk(s', id) {
      var c, d := s.clients[id], s'.clients[id];
      assert SlotOk(s, id);
      if c == d {
        SlotSameKeys(s, s', id);
      } else {
        ReplayLocal({}, c.stream, d.stream);
      }
    }
  }

  lemma ForwardKeeps(s: HubState, from: Id, msg: Routed, s': HubState, concurrent: bool)
    requires Mid(s) && ForwardStep(s, from, msg, s', concurrent)
    ensures Mid(s') && s'.nextId == s.nextId && s'.over == s.over
  {
    match msg {
      case BadDirect => SendKeeps(s, from, Error(ERR_BAD_FRAME), s', concurrent);
      case BadBroadcast => SendKeeps(s, from, Error(ERR_BAD_FRAME), s', concurrent);
      case ToOne(to, p) =>
        if to in s.clients {
          SendKeeps(s, to, Direct(from, to, p), s', concurrent);
        } else {
          SendKeeps(s, from, Error(ERR_UNKNOWN_PEER), s', concurrent);
        }
      case ToAll(p) =>
        BroadcastKeeps(s, Same, s, Broadcast(from, p), from, s', concurrent);
    }
  }

  lemma HandlerKeeps(s: HubState, cmd: Command, reply: Reply, m: HubState, concurrent: bool)
    requires Boundary(s) && !s.over && HandlerStep(s, cmd, reply, m, concurrent)
    requires cmd.Join? ==> s.nextId + 1 < ID_SPACE
    ensures !m.over ==> Mid(m) && 1 <= m.nextId
  {
    match cmd {
      case Join(isCreate, conn, token) => JoinKeeps(s, isCreate, conn, token, reply, m, concurrent);
      case Leave(id, gen, unexpected) =>
        if LeaveMatches(s, id, gen) {
          if Holds(s, unexpected) { HoldKeeps(s, id); } else { RemoveKeeps(s, id, m, concurrent); }
        }
      case Resume(id, token, conn) =>
        if ResumeMatches(s, id, token) { assert SlotOk(s, id); ResumeKeeps(s, id, conn); }
      case GraceExpired(id, gen) =>
        if ExpiryMatches(s, id, gen) { RemoveKeeps(s, id, m, concurrent); }
      case ClaimHost(id) =>
        forall x | x in s.clients ensures SlotOk(m, x) { SlotSameKeys(s, m, x); }
      case Forward(from, msg) => ForwardKeeps(s, from, msg, m, concurrent);
      case Stats =>
      case Close(reason) =>
    }
  }

  lemma CommandKeeps(s: HubState, cmd: Command, reply: Reply, removed: Drops, s': HubState, concurrent: bool)
    requires Boundary(s) && CommandStep(s, cmd, reply, removed, s', concurrent)
    requires cmd.Join? ==> s.nextId + 1 < ID_SPACE
    ensures Boundary(s')
  {
    var m :| HandlerStep(s, cmd, reply, m, concurrent) && DrainUnlessOver(m, removed, s', concurrent);
    HandlerKeeps(s, cmd, reply, m, concurrent);
    if !m.over {
      DrainMid(m, removed, s', concurrent);
      DrainRemoves(m, removed, s', concurrent);
    }
  }

  lemma {:induction false} RunKeeps(states: seq<HubState>, labels: seq<Label>, i: nat)
    requires Run(states, labels) && i < |states|
    ensures Boundary(states[i])
  {
    if i > 0 {
      RunKeeps(states, labels, i - 1);
      var s, l, s' := states[i - 1], labels[i - 1], states[i];
      assert Takes(states, labels, i - 1);
      match l {
        case Quiet => if !s.over { DriftKeeps(s, s'); }
        case Did(cmd, reply, removed) => CommandKeeps(s, cmd, reply, removed, s', true);
      }
    }
  }

  // ----- Main results -----

  /** At every command boundary of every run, a live participant's stream starts with its own
      reply and replays to the hub's client set without itself: exactly, up to the phantoms of a
      clipped resume, after a JoinResult; and to those who joined later, after SessionCreated. */
  lemma ViewsAgree(states: seq<HubState>, labels: seq<Label>, i: nat, id: Id)
    requires Run(states, labels) && i < |states| && !states[i].over
    requires id in states[i].clients && !states[i].clients[id].held
    ensures var s, c := states[i], states[i].clients[id];
      && ReplyFirst(id, c)
      && (c.stream[0].JoinResult? ==> View(c.stream) == PeersExcept(s, id) + c.phantom && c.phantom !! s.clients.Keys)
      && (c.stream[0].SessionCreated? ==> View(c.stream) == set y | y in s.clients && y > id)
  {
    RunKeeps(states, labels, i);
    assert SlotOk(states[i], id);
    assert !states[i].clients[id].evicting;
  }

  /** The creator's view is complete exactly when nobody with a smaller id is in the session,
      which is the case whenever its own join was the first command handled. */
  lemma CreatorSeesAll(states: seq<HubState>, labels: seq<Label>, i: nat, id: Id)
    requires Run(states, labels) && i < |states| && !states[i].over
    requires id in states[i].clients && !states[i].clients[id].held
    requires states[i].clients[id].stream != [] && states[i].clients[id].stream[0].SessionCreated?
    ensures View(states[i].clients[id].stream) == PeersExcept(states[i], id) <==>
            forall y :: y in states[i].clients ==> y >= id
  {
    ViewsAgree(states, labels, i, id);
    var s := states[i];
    forall y | y in s.clients && y < id ensures y in PeersExcept(s, id) && y !in View(s.clients[id].stream) {
    }
  }

  /** The 64th outage frame has no room behind the JoinResult. Losing it matters in one case. */
  ghost predicate Clipped(fs: seq<Frame>) {
    && |fs| == SEND_BUFFER
    && fs[SEND_BUFFER - 1].ParticipantLeft?
    && ParticipantJoined(fs[SEND_BUFFER - 1].who) in fs[..SEND_BUFFER - 1]
  }

  lemma {:induction false} ReplaySource(base: set<Id>, fs: seq<Frame>, x: Id)
    requires forall i :: 0 <= i < |fs| ==> !IsHello(fs[i])
    requires x !in base && x in Replay(base, fs)
    ensures ParticipantJoined(x) in fs
  {
    var n := |fs| - 1;
    if fs[n] != ParticipantJoined(x) {
      ReplaySource(base, fs[..n], x);
      assert ParticipantJoined(x) in fs[..n];
    }
  }

  lemma {:induction false} ReplayHolds(base: set<Id>, fs: seq<Frame>, x: Id)
    requires forall i :: 0 <= i < |fs| ==> !IsHello(fs[i])
    requires ParticipantJoined(x) in fs && ParticipantLeft(x) !in fs
    ensures x in Replay(base, fs)
  {
    var n := |fs| - 1;
    if fs[n] != ParticipantJoined(x) {
      assert fs == fs[..n] + [fs[n]];
      ReplayHolds(base, fs[..n], x);
    }
  }

  /** A resumed client's view equals the hub's client set exactly when its buffer was not
      clipped: a hold of at most 63 frames is always exact, and a hold of 64 fails precisely when
      the dropped frame is the departure of someone whose arrival was kept. */
  lemma ResumeExactly(states: seq<HubState>, labels: seq<Label>, i: nat, id: Id, conn: ConnId)
    requires Run(states, labels) && i < |states| && !states[i].over
    requires id in states[i].clients && states[i].clients[id].held
    ensures states[i].clients[id].taken == 0 <= |states[i].clients[id].stream|
    ensures View(ResumedSlot(states[i], id, conn).clients[id].stream) == PeersExcept(states[i], id) <==>
            !Clipped(states[i].clients[id].stream)
  {
    var s, c := states[i], states[i].clients[id];
    RunKeeps(states, labels, i);
    assert SlotOk(s, id) && !c.evicting;
    ResumedView(s, id, conn);
    var peers, fs, kept := PeersExcept(s, id), c.stream, KeptFrames(c);
    if |fs| < SEND_BUFFER {
      assert kept == fs;
    } else {
      var n := SEND_BUFFER - 1;
      assert kept == fs[..n];
      if fs[n].ParticipantLeft? {
        var x := fs[n].who;
        if x in Replay(peers, kept) {
          ReplaySource(peers, kept, x);
        } else if ParticipantJoined(x) in kept {
          assert ParticipantLeft(x) !in kept;
          ReplayHolds(peers, kept, x);
        }
      }
    }
  }

  /** Ids are fresh only while the 32-bit counter has not wrapped: at the last id, the next
      join gets id 0 and the one after it the creator's id again. */
  lemma IdsRunOut(id: Id)
    requires id < ID_SPACE
    ensures Successor(id) > id <==> id + 1 < ID_SPACE
    ensures Successor(ID_SPACE - 1) == 0 && Successor(0) == HOST_ID
  {
  }
}
