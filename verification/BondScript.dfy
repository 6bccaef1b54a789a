/** The fidelity-bond script: a locktime, CHECKLOCKTIMEVERIFY, DROP, a key and CHECKSIG. */
module BondScript {
  import opened Types
  import opened Wire

  const UINT32_MAX: nat := 0xFFFF_FFFF

  // ---- script numbers ----

  function Last(d: Data): (b: Byte)
    requires d != []
  {
    d[|d| - 1]
  }

  /** `_decode_minimal_script_number`; the high bit of the last byte is the sign. */
  function DecodeScriptNumber(d: Data): (r: Option<int>) {
    if |d| > 5 then None
    else if d != [] && Last(d) % 128 == 0 && (|d| == 1 || d[|d| - 2] < 128) then None
    else if d != [] && Last(d) >= 128 then Some(-(FromLe(d) - 128 * Power256(|d| - 1)))
    else Some(FromLe(d))
  }

  /** The bytes of a number, lowest first, without leading zeros. */
  function Digits(n: nat): (d: Data) {
    if n == 0 then [] else [n % 256] + Digits(n / 256)
  }

  /** The reference encoding of a positive number: its digits, and a zero byte when the sign bit is taken. */
  function ScriptNumber(n: nat): (d: Data) {
    var d := Digits(n);
    if d != [] && Last(d) >= 128 then d + [0] else d
  }

  lemma {:induction false} DigitsOf(d: Data)
    requires d != [] && Last(d) != 0
    ensures Digits(FromLe(d)) == d && FromLe(d) > 0
  {
    var n := FromLe(d);
    if |d| == 1 {
      assert FromLe(d[1..]) == 0;
    } else {
      DigitsOf(d[1..]);
    }
    assert n % 256 == d[0] && n / 256 == FromLe(d[1..]);
  }

  lemma {:induction false} DigitsRoundTrip(n: nat)
    ensures FromLe(Digits(n)) == n
    ensures n > 0 ==> Digits(n) != [] && Last(Digits(n)) != 0
  {
    if n > 0 {
      DigitsRoundTrip(n / 256);
      assert Digits(n)[1..] == Digits(n / 256);
    }
  }

  lemma {:induction false} PadWithZero(d: Data)
    ensures FromLe(d + [0]) == FromLe(d)
  {
    if d != [] {
      PadWithZero(d[1..]);
      assert (d + [0])[1..] == d[1..] + [0];
    }
  }

  lemma {:induction false} FromLeBound(d: Data)
    ensures FromLe(d) < Power256(|d|)
    ensures d != [] ==> FromLe(d) >= Last(d) as int * Power256(|d| - 1)
  {
    if |d| == 1 {
      assert FromLe(d[1..]) == 0;
    } else if d != [] {
      FromLeBound(d[1..]);
      assert Last(d[1..]) == Last(d);
      assert Power256(|d| - 1) == 256 * Power256(|d| - 2);
    }
  }

  lemma {:induction false} DigitsLength(n: nat, k: nat)
    requires n < Power256(k)
    ensures |Digits(n)| <= k
  {
    if n > 0 {
      assert n / 256 < Power256(k - 1);
      DigitsLength(n / 256, k - 1);
    }
  }

  /** A positive number has one encoding of at most five bytes, the reference one. */
  lemma ScriptNumberExact(d: Data, n: int)
    requires n > 0
    ensures DecodeScriptNumber(d) == Some(n) <==> |d| <= 5 && d == ScriptNumber(n)
  {
    if DecodeScriptNumber(d) == Some(n) { EncodedOnce(d, n); }
    if |d| <= 5 && d == ScriptNumber(n) { DecodedBack(n); }
  }

  lemma SignBit(d: Data)
    requires d != [] && Last(d) >= 128
    ensures FromLe(d) >= 128 * Power256(|d| - 1)
  {
    FromLeBound(d);
    assert Last(d) as int * Power256(|d| - 1) >= 128 * Power256(|d| - 1);
  }

  lemma EncodedOnce(d: Data, n: int)
    requires n > 0 && DecodeScriptNumber(d) == Some(n)
    ensures d == ScriptNumber(n)
  {
    hide Power256;
    if Last(d) >= 128 {
      SignBit(d);
      assert false;
    } else if Last(d) == 0 {
      var m := d[..|d| - 1];
      assert d == m + [0];
      PadWithZero(m);
      DigitsOf(m);
    } else {
      DigitsOf(d);
    }
  }

  lemma DecodedBack(n: int)
    requires n > 0 && |ScriptNumber(n)| <= 5
    ensures DecodeScriptNumber(ScriptNumber(n)) == Some(n)
  {
    DigitsRoundTrip(n);
    PadWithZero(Digits(n));
  }

  // ---- the script ----

  /** The key check and what follows the locktime. */
  predicate IsTail(d: Data) {
    && |d| == 37 && d[0] == 0xB1 && d[1] == 0x75 && d[2] == 33
    && (d[3] == 2 || d[3] == 3) && d[36] == 0xAC
  }

  /** The locktime push, with the bytes after it. */
  function ReadLocktime(s: Data): (r: Read<int>) {
    if s == [] then Fail
    else if s[0] == 0 then Got(0, s[1..])
    else if 0x51 <= s[0] <= 0x60 then Got(s[0] as int - 0x50, s[1..])
    else if 1 <= s[0] <= 5 then
      var k := s[0];
      if |s| < 1 + k then Fail
      else
        var push := s[1..1 + k];
        if push == [0] || (|push| == 1 && 1 <= push[0] <= 16) then Fail
        else match DecodeScriptNumber(push)
          case None => Fail
          case Some(n) => Got(n, s[1 + k..])
    else Fail
  }

  /** `_parse_canonical_bond_script`: the locktime and the key. */
  function ParseBond(s: Data): (r: Option<(int, Data)>) {
    match ReadLocktime(s)
    case Fail => None
    case Got(locktime, rest) =>
      if locktime <= 0 || locktime > UINT32_MAX || !IsTail(rest) then None
      else Some((locktime, rest[3..36]))
  }

  function Push(locktime: nat): (d: Data)
    requires 0 < locktime <= UINT32_MAX
  {
    if locktime <= 16 then [0x50 + locktime]
    else
      DigitsLength(locktime, 4);
      [|ScriptNumber(locktime)|] + ScriptNumber(locktime)
  }

  /** The reference script for a locktime and a compressed key. */
  function Bond(locktime: nat, key: Data): (s: Data)
    requires 0 < locktime <= UINT32_MAX
  {
    Push(locktime) + ([0xB1, 0x75, 33] + key + [0xAC])
  }

  predicate IsKey(key: Data) {
    |key| == 33 && (key[0] == 2 || key[0] == 3)
  }

  lemma TailOf(rest: Data, key: Data)
    ensures IsTail(rest) && rest[3..36] == key <==> IsKey(key) && rest == [0xB1, 0x75, 33] + key + [0xAC]
  {
    if IsTail(rest) { assert rest == [0xB1, 0x75, 33] + rest[3..36] + [0xAC]; }
  }

  lemma PushRead(locktime: int, rest: Data)
    requires 0 < locktime <= UINT32_MAX
    ensures ReadLocktime(Push(locktime) + rest) == Got(locktime, rest)
  {
    DigitsLength(locktime, 4);
    var s := Push(locktime) + rest;
    if locktime > 16 {
      var num := ScriptNumber(locktime);
      assert s[1..1 + |num|] == num && s[1 + |num|..] == rest;
      DigitsRoundTrip(locktime);
      ScriptNumberExact(num, locktime);
      if |num| == 1 { assert FromLe(num) == num[0] as int + 256 * FromLe(num[1..]); }
    }
    hide DecodeScriptNumber, Power256;
  }

  lemma LocktimePushed(s: Data)
    requires ReadLocktime(s).Got? && 0 < ReadLocktime(s).value <= UINT32_MAX
    ensures s == Push(ReadLocktime(s).value) + ReadLocktime(s).rest
  {
    var n := ReadLocktime(s).value;
    DigitsLength(n, 4);
    if s[0] <= 5 {
      var push := s[1..1 + s[0]];
      ScriptNumberExact(push, n);
      if n <= 16 { SmallNumber(n); }
      assert s == [s[0]] + push + s[1 + s[0]..];
    }
    hide DecodeScriptNumber, Power256, ScriptNumber;
  }

  lemma SmallNumber(n: nat)
    requires 0 < n <= 16
    ensures ScriptNumber(n) == [n]
  {
    assert Digits(n / 256) == [];
  }

  /** A script is accepted with a locktime and a key exactly when it is the reference script for them. */
  lemma BondScriptExact(s: Data, locktime: int, key: Data)
    ensures ParseBond(s) == Some((locktime, key)) <==>
            0 < locktime <= UINT32_MAX && IsKey(key) && s == Bond(locktime, key)
  {
    hide ReadLocktime, Push, IsTail, IsKey;
    var tail := [0xB1, 0x75, 33] + key + [0xAC];
    if ParseBond(s) == Some((locktime, key)) {
      LocktimePushed(s);
      TailOf(ReadLocktime(s).rest, key);
    }
    if 0 < locktime <= UINT32_MAX && IsKey(key) && s == Bond(locktime, key) {
      PushRead(locktime, tail);
      TailOf(tail, key);
    }
  }

  /** Up to 16 the locktime is an opcode, above it a push of the number, lowest byte first and without a sign bit. */
  lemma PushBytes(locktime: int)
    requires 0 < locktime <= UINT32_MAX
    ensures var d := Push(locktime);
            if locktime <= 16 then |d| == 1 && d[0] as int == 0x50 + locktime
            else && 1 <= |d| - 1 <= 5 && d[0] as int == |d| - 1
                 && FromLe(d[1..]) == locktime && d[|d| - 1] < 128
  {
    DigitsLength(locktime, 4);
    DigitsRoundTrip(locktime);
    PadWithZero(Digits(locktime));
    hide Digits, FromLe, Power256;
    if locktime > 16 { assert Push(locktime)[1..] == ScriptNumber(locktime); }
  }

  /** Which bytes a bond script has. */
  lemma BondBytes(locktime: int, key: Data)
    requires 0 < locktime <= UINT32_MAX
    ensures var s, k := Bond(locktime, key), |Push(locktime)|;
            && |s| == k + 3 + |key| + 1 && s[..k] == Push(locktime)
            && s[k] == 0xB1 && s[k + 1] == 0x75 && s[k + 2] == 33
            && s[k + 3..|s| - 1] == key && s[|s| - 1] == 0xAC
  {
    hide Push;
    var p, s := Push(locktime), Bond(locktime, key);
    assert s == p + ([0xB1, 0x75, 33] + (key + [0xAC]));
  }

  // ---- the finalizer's reading ----

  /** `_extract_freeze_script_pubkey`, which looks at the push length but not at the number. */
  function ExtractKey(s: Data): (key: Option<Data>) {
    if s == [] || s[0] < 1 || s[0] > 5 then None
    else
      var k := s[0];
      if |s| < 1 + k + 2 then None
      else
        var d := s[1 + k..];
        if d[0] != 0xB1 || d[1] != 0x75 || |d| < 3 || d[2] != 33 || |d| != 37 || d[36] != 0xAC then None
        else Some(d[3..36])
  }

  /** The finalizer takes any push of one to five bytes for the locktime, and demands the rest of the script. */
  lemma ExtractKeyExact(s: Data, key: Data)
    ensures ExtractKey(s) == Some(key) <==>
            && |key| == 33 && s != [] && 1 <= s[0] <= 5 && 1 + s[0] as int <= |s|
            && s[1 + s[0] as int..] == [0xB1, 0x75, 33] + key + [0xAC]
  {
    if s != [] && 1 + s[0] as int <= |s| {
      var d := s[1 + s[0] as int..];
      if |d| == 37 { assert d == d[..3] + d[3..36] + d[36..]; }
    }
  }

  /** Above 16 the finalizer finds the same key; up to 16 it refuses what the signer accepts. */
  lemma ReadersAgree(s: Data, locktime: int, key: Data)
    requires ParseBond(s) == Some((locktime, key))
    ensures ExtractKey(s) == if locktime > 16 then Some(key) else None
  {
    BondScriptExact(s, locktime, key);
    if locktime > 16 {
      DigitsLength(locktime, 4);
      DigitsRoundTrip(locktime);
      var num := ScriptNumber(locktime);
      assert s[1 + |num|..] == [0xB1, 0x75, 33] + key + [0xAC];
    }
    hide ParseBond, Power256, Digits;
  }
}
