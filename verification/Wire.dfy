/** The messages that travel between the ends of a session and the relay.

    Frame bodies are values here: the CBOR codec is not modelled, and every control frame is
    taken to encode. The hub handles payloads without looking inside them. */
module Wire {

  /** Participant ids are 32-bit on the wire; `Successor` writes the wrap out. */
  type Id = nat

  /** An opaque reclaim secret. */
  type Token = nat

  const ID_SPACE: nat := 0x1_0000_0000

  /** The id handed out after `id`, as a 32-bit increment. */
  function Successor(id: Id): Id {
    (id + 1) % ID_SPACE
  }

  /** The key two ends derive from one PAKE exchange: both nonces and the normalised id pair. */
  datatype PairKey = PairKey(x: nat, y: nat, lo: Id, hi: Id)

  function DerivePair(x: nat, y: nat, a: Id, b: Id): PairKey {
    if a <= b then PairKey(x, y, a, b) else PairKey(x, y, b, a)
  }

  /** Group keys are numbered in the order they are minted, so a new one is always fresh. */
  type GroupKey = nat

  type Role = nat

  const ROLE_NONE: Role := 0
  const ROLE_HOST: Role := 1
  const ROLE_MEMBER: Role := 2
  const ROLE_OBSERVER: Role := 3

  /** A group key sealed to one recipient; it opens only under the same pairwise key and for
      the same recipient. */
  datatype Wrap = Wrap(under: PairKey, key: GroupKey, role: Role, to: Id)

  datatype Option<+T> = None | Some(value: T)

  function Unwrap(w: Wrap, pair: PairKey, self: Id): Option<(GroupKey, Role)> {
    if w.under == pair && w.to == self then Some((w.key, w.role)) else None
  }

  /** What clients put inside Direct and Broadcast frames. */
  datatype Payload =
    | Pake1(x: nat, observer: bool)
    | Pake2(y: nat)
    | KeyGrant(wrap: Wrap)
    | Rekey(wrap: Wrap)
    | RekeyPake1(x: nat)
    | RekeyPake2(y: nat)
    | Sealed(key: GroupKey, sender: Id)

  /** What the relay puts into a connection's send queue. */
  datatype Frame =
    | SessionCreated(id: Id, token: Token)
    | JoinResult(id: Id, peers: set<Id>, host: Id, token: Token)
    | ParticipantJoined(who: Id)
    | ParticipantLeft(who: Id)
    | Direct(from: Id, to: Id, payload: Payload)
    | Broadcast(from: Id, payload: Payload)
    | Pong
    | Error(code: nat)
    | SessionClosed(reason: string)

  const ERR_SESSION_FULL: nat := 4
  const ERR_BAD_FRAME: nat := 6
  const ERR_UNKNOWN_PEER: nat := 7
  const ERR_RESUME_REJECTED: nat := 8
}
