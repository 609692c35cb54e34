/** The byte strings that tell keys and ciphertexts apart: the HKDF info of a pairwise key and the
    associated data of wraps and sealed frames. */
module Labels {
  import opened Wire

  // ----- Decimal rendering -----

  function Digit(d: nat): char
    requires d < 10
  {
    '0' + d as char
  }

  function Decimal(n: nat): string {
    if n < 10 then [Digit(n)] else Decimal(n / 10) + [Digit(n % 10)]
  }

  predicate NoSlash(s: string) {
    forall i :: 0 <= i < |s| ==> s[i] != '/'
  }

  lemma {:induction false} DecimalNoSlash(n: nat)
    ensures NoSlash(Decimal(n)) && |Decimal(n)| > 0
  {
    if n >= 10 { DecimalNoSlash(n / 10); }
  }

  lemma {:induction false} DecimalInjective(a: nat, b: nat)
    requires Decimal(a) == Decimal(b)
    ensures a == b
  {
    DecimalNoSlash(a / 10);
    DecimalNoSlash(b / 10);
    var s, t := Decimal(a), Decimal(b);
    assert s[|s| - 1] == Digit(a % 10) && t[|t| - 1] == Digit(b % 10);
    if a >= 10 && b >= 10 {
      assert s[..|s| - 1] == Decimal(a / 10) && t[..|t| - 1] == Decimal(b / 10);
      DecimalInjective(a / 10, b / 10);
    }
  }

  // ----- The pairwise label -----

  const PAIRWISE := "/pairwise/"

  /** The HKDF info string (section 3.2 of RFC 5869) for two participants. */
  function Info(protocol: string, a: Id, b: Id): string {
    var lo, hi := if a > b then b else a, if a > b then a else b;
    protocol + PAIRWISE + Decimal(lo) + "/" + Decimal(hi)
  }

  /** The last slash of a string is where it is. */
  lemma LastSlash(a: string, b: string, c: string, d: string)
    requires a + "/" + b == c + "/" + d && NoSlash(b) && NoSlash(d)
    ensures a == c && b == d
  {
    var s := a + "/" + b;
    assert s[|a|] == '/' && (c + "/" + d)[|c|] == '/';
    assert forall i :: |a| < i < |s| ==> s[i] == b[i - |a| - 1];
    assert forall i :: |c| < i < |s| ==> s[i] == d[i - |c| - 1];
    assert a == s[..|a|] && c == s[..|c|];
    assert b == s[|a| + 1..] && d == s[|c| + 1..];
  }

  lemma InfoParts(p: string, lo: Id, hi: Id)
    requires lo <= hi
    ensures Info(p, lo, hi) == ((p + "/pairwise") + "/" + Decimal(lo)) + "/" + Decimal(hi)
  {
    assert PAIRWISE == "/pairwise" + "/";
    assert p + PAIRWISE == (p + "/pairwise") + "/";
  }

  lemma OrderedInfoInjective(p: string, lo: Id, hi: Id, q: string, lo': Id, hi': Id)
    requires lo <= hi && lo' <= hi' && Info(p, lo, hi) == Info(q, lo', hi')
    ensures p == q && lo == lo' && hi == hi'
  {
    InfoParts(p, lo, hi);
    InfoParts(q, lo', hi');
    DecimalNoSlash(lo);
    DecimalNoSlash(hi);
    DecimalNoSlash(lo');
    DecimalNoSlash(hi');
    LastSlash((p + "/pairwise") + "/" + Decimal(lo), Decimal(hi), (q + "/pairwise") + "/" + Decimal(lo'), Decimal(hi'));
    LastSlash(p + "/pairwise", Decimal(lo), q + "/pairwise", Decimal(lo'));
    DecimalInjective(hi, hi');
    DecimalInjective(lo, lo');
    assert p == (p + "/pairwise")[..|p|] && q == (q + "/pairwise")[..|q|];
  }

  /** Both ends of a pair derive under the same label, and two labels are the same only for the same
      protocol and the same two participants: any protocol, even one that looks like a label. */
  lemma InfoExactly(p: string, a: Id, b: Id, q: string, c: Id, d: Id)
    ensures Info(p, a, b) == Info(q, c, d) <==> p == q && ((a == c && b == d) || (a == d && b == c))
  {
    var lo, hi := if a > b then b else a, if a > b then a else b;
    var lo', hi' := if c > d then d else c, if c > d then c else d;
    if Info(p, a, b) == Info(q, c, d) { OrderedInfoInjective(p, lo, hi, q, lo', hi'); }
  }

  /** The symbolic pairwise key stands for the two nonces and the pair in the label. */
  lemma SameLabelSameKey(p: string, x: nat, y: nat, a: Id, b: Id, x': nat, y': nat, c: Id, d: Id)
    ensures DerivePair(x, y, a, b) == DerivePair(x', y', c, d) <==> x == x' && y == y' && Info(p, a, b) == Info(p, c, d)
  {
    InfoExactly(p, a, b, p, c, d);
  }

  // ----- Associated data -----

  type Byte = n: nat | n < 256

  const VERSION: Byte := 1
  const SESSION_ID_LENGTH: nat := 16

  function BigEndian32(n: nat): seq<Byte>
    requires n < ID_SPACE
  {
    [n / 0x100_0000, n / 0x1_0000 % 256, n / 0x100 % 256, n % 256]
  }

  lemma BigEndianInjective(a: nat, b: nat)
    requires a < ID_SPACE && b < ID_SPACE && BigEndian32(a) == BigEndian32(b)
    ensures a == b
  {
    var s, t := BigEndian32(a), BigEndian32(b);
    assert s[0] == t[0] && s[1] == t[1] && s[2] == t[2] && s[3] == t[3];
    Rebuilt(a);
    Rebuilt(b);
  }

  lemma Rebuilt(n: nat)
    requires n < ID_SPACE
    ensures n == n / 0x100_0000 * 0x100_0000 + n / 0x1_0000 % 256 * 0x1_0000 + n / 0x100 % 256 * 0x100 + n % 256
  {
    assert n / 0x1_0000 == n / 0x100_0000 * 256 + n / 0x1_0000 % 256;
    assert n / 0x100 == n / 0x1_0000 * 256 + n / 0x100 % 256;
    assert n == n / 0x100 * 0x100 + n % 256;
  }

  /** Session, protocol version and participant. */
  function AssociatedData(sid: seq<Byte>, id: Id): (ad: seq<Byte>)
    requires |sid| == SESSION_ID_LENGTH && id < ID_SPACE
    ensures |ad| == 21
  {
    sid + [VERSION] + BigEndian32(id)
  }

  /** A wrap or frame made for one session and participant authenticates for no other. */
  lemma AssociatedDataInjective(sid: seq<Byte>, id: Id, sid': seq<Byte>, id': Id)
    requires |sid| == |sid'| == SESSION_ID_LENGTH && id < ID_SPACE && id' < ID_SPACE
    requires AssociatedData(sid, id) == AssociatedData(sid', id')
    ensures sid == sid' && id == id'
  {
    var ad, ad' := AssociatedData(sid, id), AssociatedData(sid', id');
    assert sid == ad[..16] && sid' == ad'[..16];
    assert BigEndian32(id) == ad[17..] && BigEndian32(id') == ad'[17..];
    BigEndianInjective(id, id');
  }

  /** The symbolic wrap opens exactly when the key is the one it was made under and the associated data are
      those it was made with. */
  lemma WrapOpensExactly(w: Wrap, pair: PairKey, self: Id, sid: seq<Byte>)
    requires |sid| == SESSION_ID_LENGTH && w.to < ID_SPACE && self < ID_SPACE
    ensures Unwrap(w, pair, self).Some? <==> w.under == pair && AssociatedData(sid, w.to) == AssociatedData(sid, self)
    ensures Unwrap(w, pair, self).Some? ==> Unwrap(w, pair, self).value == (w.key, w.role)
  {
    if AssociatedData(sid, w.to) == AssociatedData(sid, self) { AssociatedDataInjective(sid, w.to, sid, self); }
  }
}
