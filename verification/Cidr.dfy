/** CIDR matching of `src/limits.rs`: bit masks mean address prefixes (section 3.1 of RFC 4632, section 2.3 of
    RFC 4291). Addresses are unsigned integers of 32 or 128 bits; one proof covers both widths. */
module Cidr {
  import opened Common

  datatype IpAddr = V4(bits: nat) | V6(bits: nat) {
    function Width(): nat { if V4? then 32 else 128 }
    predicate Valid() { bits < Pow2(Width()) }
  }

  // ---------- Machine operations ----------

  /** `a & b`, bit by bit. */
  function BitAnd(a: nat, b: nat): nat {
    if a == 0 || b == 0 then 0
    else 2 * BitAnd(a / 2, b / 2) + if a % 2 == 1 && b % 2 == 1 then 1 else 0
  }

  /** `x << k` on words of the given width. */
  function ShiftLeft(x: nat, k: nat, width: nat): nat {
    (x * Pow2(k)) % Pow2(width)
  }

  function Mask(width: nat, prefix: nat): nat
    requires prefix <= width
  {
    if prefix == 0 then 0 else ShiftLeft(Pow2(width) - 1, width - prefix, width)
  }

  /** `cidr_contains`. */
  predicate CidrContains(net: IpAddr, prefix: nat, ip: IpAddr) {
    && (net.V4? <==> ip.V4?)
    && prefix <= net.Width()
    && BitAnd(net.bits, Mask(net.Width(), prefix)) == BitAnd(ip.bits, Mask(net.Width(), prefix))
  }

  /** One parsed allowlist entry. */
  datatype Entry = Exact(ip: IpAddr) | Block(net: IpAddr, prefix: nat) | Malformed

  predicate Matches(ip: IpAddr, e: Entry) {
    match e
    case Exact(a) => a == ip
    case Block(net, prefix) => CidrContains(net, prefix, ip)
    case Malformed => false
  }

  predicate IpAllowed(ip: IpAddr, allow: seq<Entry>) {
    exists i :: 0 <= i < |allow| && Matches(ip, allow[i])
  }

  // ---------- Arithmetic of masks ----------

  lemma {:induction false} MulGap(m: nat, a: nat, b: nat)
    requires a < b
    ensures a * m + m <= b * m
    decreases b
  {
    if b == a + 1 {
      assert (a + 1) * m == a * m + m;
    } else {
      MulGap(m, a, b - 1);
      assert (b - 1 + 1) * m == (b - 1) * m + m;
    }
  }

  lemma {:induction false} DivisionIsUnique(m: nat, q: nat, r: nat)
    requires 0 <= r < m
    ensures (q * m + r) / m == q && (q * m + r) % m == r
  {
    var n := q * m + r;
    var d, e := n / m, n % m;
    assert n == d * m + e;
    if d < q { MulGap(m, d, q); } else if d > q { MulGap(m, q, d); }
  }

  lemma {:induction false} Pow2Monotone(a: nat, b: nat)
    requires a <= b
    ensures Pow2(a) <= Pow2(b)
    decreases b
  {
    if a < b { Pow2Monotone(a, b - 1); }
  }

  lemma {:induction false} Pow2Split(a: nat, b: nat)
    ensures Pow2(a + b) == Pow2(a) * Pow2(b)
    decreases a
  {
    if a > 0 {
      Pow2Split(a - 1, b);
      assert 2 * (Pow2(a - 1) * Pow2(b)) == (2 * Pow2(a - 1)) * Pow2(b);
    }
  }

  /** The shifted mask has its high `prefix` bits set and no others. */
  lemma MaskValue(width: nat, prefix: nat)
    requires prefix <= width
    ensures Pow2(width - prefix) <= Pow2(width) && Mask(width, prefix) == Pow2(width) - Pow2(width - prefix)
  {
    var k := width - prefix;
    Pow2Monotone(k, width);
    if prefix > 0 {
      var m, s := Pow2(width), Pow2(k);
      assert (m - 1) * s == (s - 1) * m + (m - s);
      Pow2Monotone(k, width - 1);
      DivisionIsUnique(m, s - 1, m - s);
    }
  }

  lemma HalfThenDivide(x: nat, m: nat)
    requires m > 0
    ensures x / 2 / m == x / (2 * m)
  {
    var h := x / 2;
    var q, r := h / m, h % m;
    assert h == q * m + r;
    var b := x % 2;
    assert x == 2 * h + b;
    assert x == q * (2 * m) + (2 * r + b);
    DivisionIsUnique(2 * m, q, 2 * r + b);
  }

  function Quotient(x: nat, m: nat): nat
    requires m > 0
  {
    x / m
  }

  lemma DoubledQuotient(x: nat, m: nat)
    requires m > 0
    ensures 2 * (Quotient(x / 2, m) * m) == Quotient(x, 2 * m) * (2 * m)
  {
    HalfThenDivide(x, m);
    var q := x / (2 * m);
    assert 2 * (q * m) == q * (2 * m);
  }

  lemma EvenAnd(x: nat, y: nat)
    ensures BitAnd(x, 2 * y) == 2 * BitAnd(x / 2, y)
  {
    if x == 0 {
      assert BitAnd(0, y) == 0;
    } else if y != 0 {
      assert 2 * y / 2 == y && (2 * y) % 2 == 0;
    }
  }

  lemma OddAnd(x: nat, y: nat)
    ensures BitAnd(x, 2 * y + 1) == 2 * BitAnd(x / 2, y) + x % 2
  {
    if x != 0 {
      assert (2 * y + 1) / 2 == y && (2 * y + 1) % 2 == 1;
    }
  }

  lemma {:induction false} AndAllOnes(x: nat, width: nat)
    requires x < Pow2(width)
    ensures BitAnd(x, Pow2(width) - 1) == x
  {
    if width > 0 {
      AndAllOnes(x / 2, width - 1);
      assert Pow2(width) - 1 == 2 * (Pow2(width - 1) - 1) + 1;
      OddAnd(x, Pow2(width - 1) - 1);
    }
  }

  /** Masking clears the low `k` bits: it keeps the quotient by 2^k. */
  lemma {:induction false} AndClearsLowBits(x: nat, width: nat, k: nat)
    requires k <= width && x < Pow2(width)
    ensures Pow2(k) <= Pow2(width)
    ensures BitAnd(x, Pow2(width) - Pow2(k)) == Quotient(x, Pow2(k)) * Pow2(k)
    decreases width
  {
    Pow2Monotone(k, width);
    if k == 0 {
      AndAllOnes(x, width);
    } else {
      AndClearsLowBits(x / 2, width - 1, k - 1);
      var y := Pow2(width - 1) - Pow2(k - 1);
      assert Pow2(width) - Pow2(k) == 2 * y;
      EvenAnd(x, y);
      DoubledQuotient(x, Pow2(k - 1));
    }
  }

  lemma EqualMultiples(a: nat, b: nat, m: nat)
    requires m > 0
    ensures a * m == b * m <==> a == b
  {
    if a < b { MulGap(m, a, b); } else if b < a { MulGap(m, b, a); }
  }

  /** The leading `prefix` bits of an address. */
  function Leading(ip: IpAddr, prefix: nat): nat
    requires prefix <= ip.Width()
  {
    Quotient(ip.bits, Pow2(ip.Width() - prefix))
  }

  // ---------- What membership means ----------

  /** Two words agree under a prefix mask exactly when their leading bits agree. */
  lemma MaskedEqual(width: nat, prefix: nat, a: nat, b: nat)
    requires prefix <= width && a < Pow2(width) && b < Pow2(width)
    ensures BitAnd(a, Mask(width, prefix)) == BitAnd(b, Mask(width, prefix)) <==>
      Quotient(a, Pow2(width - prefix)) == Quotient(b, Pow2(width - prefix))
  {
    var m := Pow2(width - prefix);
    MaskValue(width, prefix);
    AndClearsLowBits(a, width, width - prefix);
    AndClearsLowBits(b, width, width - prefix);
    EqualMultiples(Quotient(a, m), Quotient(b, m), m);
  }

  /** A block contains an address exactly when both are of one family, the prefix fits it and the leading bits agree. */
  lemma ContainsMeansPrefix(net: IpAddr, prefix: nat, ip: IpAddr)
    requires net.Valid() && ip.Valid()
    ensures CidrContains(net, prefix, ip) <==>
      (net.V4? <==> ip.V4?) && prefix <= net.Width() && Leading(net, prefix) == Leading(ip, prefix)
  {
    if (net.V4? <==> ip.V4?) && prefix <= net.Width() {
      MaskedEqual(net.Width(), prefix, net.bits, ip.bits);
    }
  }

  lemma DivideTwice(x: nat, a: nat, b: nat)
    requires a > 0 && b > 0
    ensures a * b > 0 && x / a / b == x / (a * b)
  {
    var h := x / a;
    var q, r := h / b, h % b;
    var e := x % a;
    assert x == h * a + e && h == q * b + r;
    assert a * b > 0;
    assert x == q * (a * b) + (r * a + e) by {
      assert h * a == (q * b) * a + r * a;
      assert (q * b) * a == q * (a * b);
    }
    assert r * a + e < a * b by { MulGap(a, r, b); }
    DivisionIsUnique(a * b, q, r * a + e);
  }

  /** Fewer leading bits are the leading bits of the leading bits. */
  lemma LeadingOfLeading(ip: IpAddr, p: nat, q: nat)
    requires p <= q <= ip.Width()
    ensures Pow2(q - p) > 0 && Leading(ip, p) == Leading(ip, q) / Pow2(q - p)
  {
    var w := ip.Width();
    Pow2Split(w - q, q - p);
    assert w - p == (w - q) + (q - p);
    DivideTwice(ip.bits, Pow2(w - q), Pow2(q - p));
  }

  /** Two blocks of one family are nested or disjoint: if they share an address, the one with the longer prefix lies
      inside the other. */
  lemma NestedOrDisjoint(outer: IpAddr, p: nat, inner: IpAddr, q: nat, shared: IpAddr, ip: IpAddr)
    requires outer.Valid() && inner.Valid() && shared.Valid() && ip.Valid() && p <= q
    requires CidrContains(outer, p, shared) && CidrContains(inner, q, shared) && CidrContains(inner, q, ip)
    ensures CidrContains(outer, p, ip)
  {
    ContainsMeansPrefix(outer, p, shared);
    ContainsMeansPrefix(inner, q, shared);
    ContainsMeansPrefix(inner, q, ip);
    ContainsMeansPrefix(outer, p, ip);
    LeadingOfLeading(shared, p, q);
    LeadingOfLeading(ip, p, q);
  }

  /** A longer prefix of the same network selects fewer addresses; the full prefix selects one, the empty prefix all. */
  lemma PrefixesNest(net: IpAddr, p: nat, q: nat, ip: IpAddr)
    requires net.Valid() && ip.Valid() && (net.V4? <==> ip.V4?) && p <= q <= net.Width()
    ensures CidrContains(net, q, net)
    ensures CidrContains(net, q, ip) ==> CidrContains(net, p, ip)
    ensures CidrContains(net, net.Width(), ip) <==> net == ip
    ensures CidrContains(net, 0, ip)
  {
    if CidrContains(net, q, ip) { NestedOrDisjoint(net, p, net, q, net, ip); }
    ContainsMeansPrefix(net, net.Width(), ip);
    ContainsMeansPrefix(net, 0, ip);
    assert Pow2(0) == 1;
  }

  /** What an allowlist entry stands for, without masks. */
  ghost predicate Stands(e: Entry, ip: IpAddr) {
    match e
    case Exact(a) => a == ip
    case Block(net, prefix) =>
      (net.V4? <==> ip.V4?) && prefix <= net.Width() && Leading(net, prefix) == Leading(ip, prefix)
    case Malformed => false
  }

  /** An address is allowed exactly when some entry names it or names a block with its leading bits; malformed entries
      and oversized prefixes allow nothing. */
  lemma AllowedMeansListed(ip: IpAddr, allow: seq<Entry>)
    requires ip.Valid() && forall i :: 0 <= i < |allow| && allow[i].Block? ==> allow[i].net.Valid()
    ensures IpAllowed(ip, allow) <==> exists i :: 0 <= i < |allow| && Stands(allow[i], ip)
  {
    forall i | 0 <= i < |allow| ensures Matches(ip, allow[i]) <==> Stands(allow[i], ip) {
      if allow[i].Block? { ContainsMeansPrefix(allow[i].net, allow[i].prefix, ip); }
    }
    if IpAllowed(ip, allow) {
      var i :| 0 <= i < |allow| && Matches(ip, allow[i]);
      assert Stands(allow[i], ip);
    }
  }
}
