/** Strict DER signatures, section "DER encoding reference" of BIP 66. */
module Der {
  import opened Types
  import opened Wire

  /** One integer: no sign bit, and no zero byte in front unless it clears the sign bit. */
  predicate IsInteger(d: Data) {
    d != [] && d[0] < 128 && !(|d| > 1 && d[0] == 0 && d[1] < 128)
  }

  /** A marker, a length and that many bytes. */
  function ReadInteger(d: Data): (r: Read<nat>) {
    if |d| < 2 || d[0] != 2 || d[1] == 0 || |d| < 2 + d[1] as int then Fail
    else
      var body := d[2..2 + d[1] as int];
      if IsInteger(body) then Got(BigEndian(body), d[2 + d[1] as int..]) else Fail
  }

  /** `_parse_der_signature`. */
  function ParseDer(der: Data): (r: Option<(nat, nat)>) {
    if !(8 <= |der| <= 72) || der[0] != 0x30 || der[1] as int != |der| - 2 then None
    else match ReadInteger(der[2..])
      case Fail => None
      case Got(r, rest) =>
        match ReadInteger(rest)
        case Fail => None
        case Got(s, rest') => if rest' == [] then Some((r, s)) else None
  }

  // ---- the reference encoding ----

  function Digits(n: nat): (d: Data) {
    if n == 0 then [] else Digits(n / 256) + [n % 256]
  }

  function Integer(n: nat): (d: Data) {
    var d := Digits(n);
    if d == [] || d[0] >= 128 then [0] + d else d
  }

  function Encoded(n: nat): (d: Data)
    requires |Integer(n)| < 256
  {
    [2, |Integer(n)|] + Integer(n)
  }

  function Signature(r: nat, s: nat): (der: Data)
    requires |Integer(r)| + |Integer(s)| <= 251
  {
    [0x30, 4 + |Integer(r)| + |Integer(s)|] + (Encoded(r) + Encoded(s))
  }

  lemma {:induction false} DigitsOf(d: Data)
    requires d != [] ==> d[0] != 0
    ensures Digits(BigEndian(d)) == d && (d != [] ==> BigEndian(d) > 0)
  {
    if d != [] {
      var front := d[..|d| - 1];
      DigitsOf(front);
      var n := BigEndian(d);
      assert n / 256 == BigEndian(front) && n % 256 == d[|d| - 1];
      if front == [] { assert n == d[0] as int; }
      assert d == front + [d[|d| - 1]];
    }
  }

  lemma {:induction false} DigitsRoundTrip(n: nat)
    ensures BigEndian(Digits(n)) == n
    ensures n > 0 ==> Digits(n) != [] && Digits(n)[0] != 0
  {
    if n > 0 {
      DigitsRoundTrip(n / 256);
      var d := Digits(n);
      assert d[..|d| - 1] == Digits(n / 256);
    }
  }

  lemma {:induction false} ZeroInFront(d: Data)
    ensures BigEndian([0] + d) == BigEndian(d)
  {
    if d == [] {
      assert ([0] + d)[..0] == [];
    } else {
      ZeroInFront(d[..|d| - 1]);
      assert ([0] + d)[..|d|] == [0] + d[..|d| - 1];
    }
  }

  /** Every number has one integer encoding. */
  lemma IntegerExact(d: Data, n: nat)
    ensures IsInteger(d) && BigEndian(d) == n <==> d == Integer(n)
  {
    if IsInteger(d) && BigEndian(d) == n {
      if d[0] == 0 {
        ZeroInFront(d[1..]);
        assert d == [0] + d[1..];
        DigitsOf(d[1..]);
      } else {
        DigitsOf(d);
      }
    }
    if d == Integer(n) {
      DigitsRoundTrip(n);
      ZeroInFront(Digits(n));
    }
  }

  lemma EncodedRead(n: nat, t: Data)
    requires |Integer(n)| < 256
    ensures ReadInteger(Encoded(n) + t) == Got(n, t)
  {
    IntegerExact(Integer(n), n);
    var d := Encoded(n) + t;
    assert d[2..2 + |Integer(n)|] == Integer(n) && d[2 + |Integer(n)|..] == t;
    hide Integer, BigEndian;
  }

  lemma ReadEncoded(d: Data)
    requires ReadInteger(d).Got?
    ensures var r := ReadInteger(d); |Integer(r.value)| < 256 && d == Encoded(r.value) + r.rest
  {
    var body := d[2..2 + d[1] as int];
    IntegerExact(body, ReadInteger(d).value);
    assert d == [2, d[1]] + body + d[2 + d[1] as int..];
    hide Integer, BigEndian, IsInteger;
  }

  /** A string is accepted with `r` and `s` exactly when it is the reference encoding, in at most 72 bytes;
      so no two accepted strings mean the same pair. */
  lemma SignatureExact(der: Data, r: nat, s: nat)
    ensures ParseDer(der) == Some((r, s)) <==>
            |Integer(r)| + |Integer(s)| <= 66 && der == Signature(r, s)
  {
    hide ReadInteger, Integer;
    if ParseDer(der) == Some((r, s)) {
      var rest := ReadInteger(der[2..]).rest;
      ReadEncoded(der[2..]);
      ReadEncoded(rest);
      assert der == [0x30, der[1]] + der[2..];
      assert Encoded(s) + [] == Encoded(s);
    }
    if |Integer(r)| + |Integer(s)| <= 66 && der == Signature(r, s) {
      EncodedRead(r, Encoded(s));
      EncodedRead(s, []);
      assert Encoded(s) + [] == Encoded(s);
      assert der[2..] == Encoded(r) + Encoded(s);
      NotEmpty(r);
      NotEmpty(s);
    }
  }

  /** Where the two numbers are in an accepted string, highest byte first. */
  lemma SignatureBytes(der: Data, r: nat, s: nat)
    requires ParseDer(der) == Some((r, s))
    ensures 8 <= |der| <= 72 && der[0] == 0x30 && der[1] as int + 2 == |der|
    ensures der[2] == 2 && 4 + der[3] as int + 2 < |der| && BigEndian(der[4..4 + der[3] as int]) == r
    ensures var k := 4 + der[3] as int;
            der[k] == 2 && k + 2 + der[k + 1] as int == |der| && BigEndian(der[k + 2..]) == s
  {
    hide BigEndian, IsInteger;
    var d := der[2..];
    var k := 2 + d[1] as int;
    assert d[2..k] == der[4..k + 2];
    var e := ReadInteger(d).rest;
    assert e == d[k..] == der[k + 2..];
    assert e[2..2 + e[1] as int] == e[2..] == der[k + 4..];
  }

  lemma NotEmpty(n: nat)
    ensures |Integer(n)| >= 1
  {
  }
}
