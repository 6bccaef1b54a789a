/** Bytes, little-endian words, compact sizes and lists: what the three transaction codecs share.

    A reader takes the rest of the input and gives a value and what is left, or fails. */
module Wire {
  import opened Types

  type Byte = x: int | 0 <= x < 256
  type Data = seq<Byte>
  type Word32 = x: int | 0 <= x < 0x1_0000_0000
  type Word64 = x: int | 0 <= x < 0x1_0000_0000_0000_0000

  // A byte string whose length is a compact size.
  type Blob = d: Data | |d| < 0x1_0000_0000_0000_0000

  // A list whose length is a compact size.
  type List<T> = xs: seq<T> | |xs| < 0x1_0000_0000_0000_0000

  datatype Read<+T> = Fail | Got(value: T, rest: Data) {
    predicate IsFailure() { Fail? }
    function PropagateFailure<U>(): (r: Read<U>) requires Fail? { Fail }
    function Extract(): (p: (T, Data)) requires Got? { (value, rest) }
  }

  // ---- numbers ----

  /** The number whose bytes are `d`, lowest first. */
  function FromLe(d: Data): (n: nat) {
    if d == [] then 0 else d[0] as int + 256 * FromLe(d[1..])
  }

  /** The number whose bytes are `d`, highest first. */
  function BigEndian(d: Data): (n: nat) {
    if d == [] then 0 else 256 * BigEndian(d[..|d| - 1]) + d[|d| - 1] as int
  }

  function Power256(k: nat): (p: nat)
    ensures p > 0
  {
    if k == 0 then 1 else 256 * Power256(k - 1)
  }

  lemma Scale(p: int, x: int)
    ensures 256 * (p * x) == (256 * p) * x
  {
  }

  /** Bytes further on count for more. */
  lemma {:induction false} FromLeBoth(a: Data, b: Data)
    ensures FromLe(a + b) == FromLe(a) + Power256(|a|) * FromLe(b)
  {
    if a == [] {
      assert a + b == b;
    } else {
      FromLeBoth(a[1..], b);
      assert (a + b)[1..] == a[1..] + b;
      Scale(Power256(|a| - 1), FromLe(b));
    }
  }

  // ---- words ----

  function Le2(v: int): (d: Data)
    requires 0 <= v < 0x1_0000
    ensures |d| == 2
  {
    [v % 256, v / 256]
  }

  function Le4(v: Word32): (d: Data)
    ensures |d| == 4
  {
    Le2(v % 0x1_0000) + Le2(v / 0x1_0000)
  }

  function Le8(v: Word64): (d: Data)
    ensures |d| == 8
  {
    Le4(v % 0x1_0000_0000) + Le4(v / 0x1_0000_0000)
  }

  function Word2(d: Data): (v: int)
    requires |d| == 2
    ensures 0 <= v < 0x1_0000
  {
    d[0] as int + 256 * d[1] as int
  }

  function Word4(d: Data): (v: Word32)
    requires |d| == 4
  {
    Word2(d[..2]) + 0x1_0000 * Word2(d[2..])
  }

  function Word8(d: Data): (v: Word64)
    requires |d| == 8
  {
    Word4(d[..4]) as int + 0x1_0000_0000 * Word4(d[4..]) as int
  }

  lemma Words2(v: int, d: Data)
    requires 0 <= v < 0x1_0000 && |d| == 2
    ensures Word2(Le2(v)) == v && Le2(Word2(d)) == d
  {
  }

  lemma Halves4(l: int, h: int)
    requires 0 <= l < 0x1_0000
    ensures (l + 0x1_0000 * h) % 0x1_0000 == l && (l + 0x1_0000 * h) / 0x1_0000 == h
  {
  }

  lemma Words4(v: Word32, d: Data)
    requires |d| == 4
    ensures Word4(Le4(v)) == v && Le4(Word4(d)) == d
  {
    hide Le2, Word2;
    var lo, hi := v % 0x1_0000, v / 0x1_0000;
    Words2(lo, d[..2]);
    Words2(hi, d[2..]);
    assert Le4(v)[..2] == Le2(lo) && Le4(v)[2..] == Le2(hi);
    Halves4(Word2(d[..2]), Word2(d[2..]));
    assert d[..2] + d[2..] == d;
  }

  lemma Halves8(l: int, h: int)
    requires 0 <= l < 0x1_0000_0000
    ensures (l + 0x1_0000_0000 * h) % 0x1_0000_0000 == l && (l + 0x1_0000_0000 * h) / 0x1_0000_0000 == h
  {
  }

  lemma Words8(v: Word64, d: Data)
    requires |d| == 8
    ensures Word8(Le8(v)) == v && Le8(Word8(d)) == d
  {
    hide Le4, Word4;
    var lo, hi := v % 0x1_0000_0000, v / 0x1_0000_0000;
    Words4(lo, d[..4]);
    Words4(hi, d[4..]);
    assert Le8(v)[..4] == Le4(lo) && Le8(v)[4..] == Le4(hi);
    Halves8(Word4(d[..4]), Word4(d[4..]));
    assert d[..4] + d[4..] == d;
  }

  /** A word is the number of its bytes, lowest first. */
  lemma WordsAreLittleEndian(d: Data)
    ensures |d| == 2 ==> Word2(d) == FromLe(d)
    ensures |d| == 4 ==> Word4(d) == FromLe(d)
    ensures |d| == 8 ==> Word8(d) == FromLe(d)
  {
    if |d| == 2 { TwoBytes(d); }
    if |d| == 4 { FourBytes(d); }
    if |d| == 8 {
      FourBytes(d[..4]);
      FourBytes(d[4..]);
      Powers();
      FromLeBoth(d[..4], d[4..]);
      assert d[..4] + d[4..] == d;
    }
    hide Word2, Word4, FromLe, Power256;
  }

  lemma TwoBytes(d: Data)
    requires |d| == 2
    ensures Word2(d) == FromLe(d)
  {
    assert d[1..][1..] == [];
    assert FromLe(d[1..]) == d[1] as int + 256 * FromLe(d[1..][1..]);
  }

  lemma Powers()
    ensures Power256(2) == 0x1_0000 && Power256(4) == 0x1_0000_0000
  {
    assert Power256(2) == 256 * Power256(1) && Power256(4) == 256 * Power256(3) && Power256(3) == 256 * Power256(2);
  }

  lemma FourBytes(d: Data)
    requires |d| == 4
    ensures Word4(d) == FromLe(d)
  {
    TwoBytes(d[..2]);
    TwoBytes(d[2..]);
    Powers();
    FromLeBoth(d[..2], d[2..]);
    assert d[..2] + d[2..] == d;
    hide Word2, FromLe, Power256;
  }

  /** Words are written lowest byte first, and no other bytes of that length have their value. */
  lemma WrittenLittleEndian4(v: Word32, d: Data)
    ensures FromLe(Le4(v)) == v && (|d| == 4 && FromLe(d) == v ==> d == Le4(v))
  {
    WordsAreLittleEndian(Le4(v));
    Words4(v, Le4(v));
    if |d| == 4 { WordsAreLittleEndian(d); Words4(v, d); }
    hide Le4, Word4, FromLe;
  }

  lemma WrittenLittleEndian8(v: Word64, d: Data)
    ensures FromLe(Le8(v)) == v && (|d| == 8 && FromLe(d) == v ==> d == Le8(v))
  {
    WordsAreLittleEndian(Le8(v));
    Words8(v, Le8(v));
    if |d| == 8 { WordsAreLittleEndian(d); Words8(v, d); }
    hide Le8, Word8, FromLe;
  }

  function ReadWord32(d: Data): (r: Read<Word32>) {
    if |d| < 4 then Fail else Got(Word4(d[..4]), d[4..])
  }

  function ReadWord64(d: Data): (r: Read<Word64>) {
    if |d| < 8 then Fail else Got(Word8(d[..8]), d[8..])
  }

  function ReadBytes(n: nat, d: Data): (r: Read<Data>) {
    if |d| < n then Fail else Got(d[..n], d[n..])
  }

  lemma Word32RoundTrip(v: Word32, tail: Data)
    ensures ReadWord32(Le4(v) + tail) == Got(v, tail)
  {
    Words4(v, Le4(v));
    assert (Le4(v) + tail)[..4] == Le4(v) && (Le4(v) + tail)[4..] == tail;
    hide Le4, Word4;
  }

  lemma Word32Inverse(d: Data)
    ensures ReadWord32(d).Got? ==> d == Le4(ReadWord32(d).value) + ReadWord32(d).rest
  {
    if |d| >= 4 { Words4(0, d[..4]); }
    hide Le4, Word4;
  }

  lemma Word64RoundTrip(v: Word64, tail: Data)
    ensures ReadWord64(Le8(v) + tail) == Got(v, tail)
  {
    Words8(v, Le8(v));
    assert (Le8(v) + tail)[..8] == Le8(v) && (Le8(v) + tail)[8..] == tail;
    hide Le8, Word8;
  }

  lemma Word64Inverse(d: Data)
    ensures ReadWord64(d).Got? ==> d == Le8(ReadWord64(d).value) + ReadWord64(d).rest
  {
    if |d| >= 8 { Words8(0, d[..8]); }
    hide Le8, Word8;
  }

  lemma BytesRoundTrip(b: Data, tail: Data)
    ensures ReadBytes(|b|, b + tail) == Got(b, tail)
  {
  }

  // ---- compact sizes ----

  function Size(n: Word64): (d: Data) {
    if n < 0xFD then [n]
    else if n <= 0xFFFF then [0xFD] + Le2(n)
    else if n <= 0xFFFF_FFFF then [0xFE] + Le4(n)
    else [0xFF] + Le8(n)
  }

  /** A compact size; the strict form takes only the shortest encoding. */
  function ReadSize(strict: bool, d: Data): (r: Read<Word64>)
    ensures r.Got? ==> |r.rest| < |d|
  {
    if d == [] then Fail
    else if d[0] < 0xFD then Got(d[0], d[1..])
    else if d[0] == 0xFD then
      if |d| < 3 || (strict && Word2(d[1..3]) < 0xFD) then Fail else Got(Word2(d[1..3]), d[3..])
    else if d[0] == 0xFE then
      if |d| < 5 || (strict && Word4(d[1..5]) <= 0xFFFF) then Fail else Got(Word4(d[1..5]), d[5..])
    else
      if |d| < 9 || (strict && Word8(d[1..9]) <= 0xFFFF_FFFF) then Fail else Got(Word8(d[1..9]), d[9..])
  }

  lemma SizeRoundTrip(strict: bool, n: Word64, tail: Data)
    ensures ReadSize(strict, Size(n) + tail) == Got(n, tail)
  {
    var d := Size(n) + tail;
    if n < 0xFD {
    } else if n <= 0xFFFF {
      Words2(n, Le2(n));
      assert d[1..3] == Le2(n) && d[3..] == tail;
    } else if n <= 0xFFFF_FFFF {
      Words4(n, Le4(n));
      assert d[1..5] == Le4(n) && d[5..] == tail;
    } else {
      Words8(n, Le8(n));
      assert d[1..9] == Le8(n) && d[9..] == tail;
    }
    hide Le2, Le4, Le8, Word2, Word4, Word8;
  }

  lemma SizeFirst(n: Word64)
    ensures Size(n) != [] && (n < 0xFD ==> Size(n) == [n]) && (n >= 0xFD ==> Size(n)[0] >= 0xFD)
  {
  }

  /** Which bytes a compact size has. */
  lemma SizeBytes(n: Word64)
    ensures var d := Size(n);
            if n < 0xFD then d == [n]
            else if n <= 0xFFFF then |d| == 3 && d[0] == 0xFD && FromLe(d[1..]) == n
            else if n <= 0xFFFF_FFFF then |d| == 5 && d[0] == 0xFE && FromLe(d[1..]) == n
            else |d| == 9 && d[0] == 0xFF && FromLe(d[1..]) == n
  {
    if 0xFD <= n <= 0xFFFF {
      Words2(n, Le2(n));
      WordsAreLittleEndian(Le2(n));
    } else if n <= 0xFFFF_FFFF {
      WrittenLittleEndian4(n, []);
    } else {
      WrittenLittleEndian8(n, []);
    }
    hide Le2, Le4, Le8, FromLe, Word2;
  }

  lemma SizeInverse(d: Data)
    ensures var r := ReadSize(true, d); r.Got? ==> d == Size(r.value) + r.rest
  {
    if ReadSize(true, d).Got? && d[0] >= 0xFD {
      if d[0] == 0xFD {
        Words2(0, d[1..3]);
        assert d == [d[0]] + d[1..3] + d[3..];
      } else if d[0] == 0xFE {
        Words4(0, d[1..5]);
        assert d == [d[0]] + d[1..5] + d[5..];
      } else {
        Words8(0, d[1..9]);
        assert d == [d[0]] + d[1..9] + d[9..];
      }
    }
    hide Le2, Le4, Le8, Word2, Word4, Word8;
  }

  // ---- byte strings with their size in front ----

  function Prefixed(b: Blob): (d: Data) {
    Size(|b|) + b
  }

  function ReadBlob(strict: bool, limit: nat, d: Data): (r: Read<Blob>)
    ensures r.Got? ==> |r.rest| < |d|
  {
    match ReadSize(strict, d)
    case Fail => Fail
    case Got(n, rest) => if n > limit || n > |rest| then Fail else Got(rest[..n], rest[n..])
  }

  lemma BlobRoundTrip(strict: bool, limit: nat, b: Blob, tail: Data)
    ensures ReadBlob(strict, limit, Prefixed(b) + tail) == if |b| <= limit then Got(b, tail) else Fail
  {
    SizeRoundTrip(strict, |b|, b + tail);
    assert Prefixed(b) + tail == Size(|b|) + (b + tail);
    hide Size, ReadSize;
  }

  lemma BlobInverse(limit: nat, d: Data)
    ensures var r := ReadBlob(true, limit, d); r.Got? ==> d == Prefixed(r.value) + r.rest && |r.value| <= limit
  {
    SizeInverse(d);
    hide Size, ReadSize;
  }

  // ---- lists ----

  function Join<T>(ser: T -> Data, xs: seq<T>): (d: Data) {
    if xs == [] then [] else ser(xs[0]) + Join(ser, xs[1..])
  }

  function ReadList<T>(read: Data -> Read<T>, n: nat, d: Data): (r: Read<seq<T>>)
    ensures r.Got? ==> |r.value| == n
  {
    if n == 0 then Got([], d)
    else match read(d)
      case Fail => Fail
      case Got(x, rest) =>
        match ReadList(read, n - 1, rest)
        case Fail => Fail
        case Got(xs, rest') => Got([x] + xs, rest')
  }

  lemma {:induction false} ListRoundTrip<T(!new)>(read: Data -> Read<T>, ser: T -> Data, xs: seq<T>, tail: Data)
    requires forall x, t :: x in xs ==> read(ser(x) + t) == Got(x, t)
    ensures ReadList(read, |xs|, Join(ser, xs) + tail) == Got(xs, tail)
  {
    if xs == [] {
      assert Join(ser, xs) + tail == tail;
    } else {
      ListRoundTrip(read, ser, xs[1..], tail);
      assert Join(ser, xs) + tail == ser(xs[0]) + (Join(ser, xs[1..]) + tail);
      assert xs[0] in xs && xs == [xs[0]] + xs[1..];
    }
  }

  lemma {:induction false} ListInverse<T(!new)>(read: Data -> Read<T>, ser: T -> Data, n: nat, d: Data)
    requires forall d :: read(d).Got? ==> d == ser(read(d).value) + read(d).rest
    ensures var r := ReadList(read, n, d); r.Got? ==> d == Join(ser, r.value) + r.rest
  {
    if n > 0 && read(d).Got? {
      ListInverse(read, ser, n - 1, read(d).rest);
      var r := ReadList(read, n, d);
      if r.Got? {
        assert r.value == [read(d).value] + r.value[1..];
        assert ser(r.value[0]) + (Join(ser, r.value[1..]) + r.rest) == Join(ser, r.value) + r.rest;
      }
    }
  }

  lemma {:induction false} ListHolds<T(!new)>(read: Data -> Read<T>, ok: T -> bool, n: nat, d: Data)
    requires forall d :: read(d).Got? ==> ok(read(d).value)
    ensures var r := ReadList(read, n, d); r.Got? ==> forall x :: x in r.value ==> ok(x)
  {
    if n > 0 && read(d).Got? { ListHolds(read, ok, n - 1, read(d).rest); }
  }

  /** A reader that accepts more reads the same list where the other one accepts. */
  lemma {:induction false} ListWeaker<T>(read: Data -> Read<T>, weak: Data -> Read<T>, n: nat, d: Data)
    requires forall d :: read(d).Got? ==> weak(d) == read(d)
    ensures ReadList(read, n, d).Got? ==> ReadList(weak, n, d) == ReadList(read, n, d)
  {
    if n > 0 && read(d).Got? { ListWeaker(read, weak, n - 1, read(d).rest); }
  }

  // ---- lists with their length in front ----

  function Counted<T>(ser: T -> Data, xs: List<T>): (d: Data) {
    Size(|xs|) + Join(ser, xs)
  }

  function ReadCounted<T>(strict: bool, limit: nat, read: Data -> Read<T>, d: Data): (r: Read<List<T>>)
    ensures r.Got? ==> |r.value| <= limit
  {
    var (n, rest) :- ReadSize(strict, d);
    if n > limit then Fail else ReadList(read, n, rest)
  }

  lemma CountedRoundTrip<T(!new)>(strict: bool, limit: nat, read: Data -> Read<T>, ser: T -> Data, xs: List<T>,
      tail: Data)
    requires forall x, t :: x in xs ==> read(ser(x) + t) == Got(x, t)
    ensures ReadCounted(strict, limit, read, Counted(ser, xs) + tail) == if |xs| <= limit then Got(xs, tail) else Fail
  {
    hide Size, ReadSize;
    SizeRoundTrip(strict, |xs|, Join(ser, xs) + tail);
    assert Counted(ser, xs) + tail == Size(|xs|) + (Join(ser, xs) + tail);
    ListRoundTrip(read, ser, xs, tail);
  }

  lemma CountedInverse<T(!new)>(limit: nat, read: Data -> Read<T>, ser: T -> Data, d: Data)
    requires forall d :: read(d).Got? ==> d == ser(read(d).value) + read(d).rest
    ensures var r := ReadCounted(true, limit, read, d);
            r.Got? ==> d == Counted(ser, r.value) + r.rest
  {
    hide Size, ReadSize;
    var s := ReadSize(true, d);
    SizeInverse(d);
    if s.Got? { ListInverse(read, ser, s.value, s.rest); }
    var r := ReadCounted(true, limit, read, d);
    if r.Got? { assert d == Size(s.value) + (Join(ser, r.value) + r.rest) == Counted(ser, r.value) + r.rest; }
  }

  lemma CountedHolds<T(!new)>(strict: bool, limit: nat, read: Data -> Read<T>, ok: T -> bool, d: Data)
    requires forall d :: read(d).Got? ==> ok(read(d).value)
    ensures var r := ReadCounted(strict, limit, read, d);
            r.Got? ==> forall x :: x in r.value ==> ok(x)
  {
    hide ReadSize;
    var s := ReadSize(strict, d);
    if s.Got? { ListHolds(read, ok, s.value, s.rest); }
  }

  lemma CountedWeaker<T>(strict: bool, limit: nat, more: nat, read: Data -> Read<T>, weak: Data -> Read<T>, d: Data)
    requires limit <= more && forall d :: read(d).Got? ==> weak(d) == read(d)
    ensures ReadCounted(strict, limit, read, d).Got? ==>
            ReadCounted(strict, more, weak, d) == ReadCounted(strict, limit, read, d)
  {
    hide ReadSize;
    var s := ReadSize(strict, d);
    if s.Got? { ListWeaker(read, weak, s.value, s.rest); }
  }

  /** The result of a list reader that has already read `xs`. */
  function After<T>(xs: seq<T>, r: Read<seq<T>>): (r': Read<seq<T>>)
    ensures xs == [] ==> r' == r
    ensures r.Got? && r.value == [] ==> r' == Got(xs, r.rest)
  {
    match r
    case Fail => Fail
    case Got(ys, rest) =>
      assert xs == [] ==> xs + ys == ys;
      assert ys == [] ==> xs + ys == xs;
      Got(xs + ys, rest)
  }

  lemma AfterNext<T>(read: Data -> Read<T>, xs: seq<T>, n: nat, d: Data)
    requires n > 0
    ensures After(xs, ReadList(read, n, d)) ==
            if read(d).Fail? then Fail else After(xs + [read(d).value], ReadList(read, n - 1, read(d).rest))
  {
    if read(d).Got? {
      var r := ReadList(read, n - 1, read(d).rest);
      if r.Got? { assert xs + ([read(d).value] + r.value) == xs + [read(d).value] + r.value; }
    }
  }

  /** Items of one length lie at multiples of it. */
  lemma {:induction false} FixedItems<T(!new)>(ser: T -> Data, xs: seq<T>, k: nat, i: nat)
    requires i < |xs| && forall x :: |ser(x)| == k
    ensures |Join(ser, xs)| == k * |xs| && 0 <= k * i <= k * i + k <= k * |xs|
    ensures Join(ser, xs)[k * i..k * i + k] == ser(xs[i])
  {
    FixedLength(ser, xs, k);
    FixedLength(ser, xs[..i], k);
    FixedLength(ser, xs[i + 1..], k);
    JoinNext(ser, xs, i);
    JoinBoth(ser, xs[..i + 1], xs[i + 1..]);
    assert xs[..i + 1] + xs[i + 1..] == xs;
    hide Join;
  }

  lemma {:induction false} FixedLength<T(!new)>(ser: T -> Data, xs: seq<T>, k: nat)
    requires forall x :: |ser(x)| == k
    ensures |Join(ser, xs)| == k * |xs|
  {
    if xs != [] { FixedLength(ser, xs[1..], k); }
  }

  lemma {:induction false} JoinBoth<T>(ser: T -> Data, xs: seq<T>, ys: seq<T>)
    ensures Join(ser, xs + ys) == Join(ser, xs) + Join(ser, ys)
  {
    if xs == [] {
      assert xs + ys == ys;
    } else {
      JoinBoth(ser, xs[1..], ys);
      Assoc(ser(xs[0]), Join(ser, xs[1..]), Join(ser, ys));
      assert (xs + ys)[1..] == xs[1..] + ys;
    }
  }

  lemma JoinNext<T>(ser: T -> Data, xs: seq<T>, i: nat)
    requires i < |xs|
    ensures Join(ser, xs[..i + 1]) == Join(ser, xs[..i]) + ser(xs[i])
  {
    JoinBoth(ser, xs[..i], [xs[i]]);
    assert xs[..i + 1] == xs[..i] + [xs[i]];
    assert Join(ser, [xs[i]]) == ser(xs[i]) + Join(ser, []);
  }
}
