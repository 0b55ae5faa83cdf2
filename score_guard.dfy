/** The ScoreGuard: the high score kept in the device's preferences store.
    saveScore writes  checksum ":" key hex(score * prime)  under the
    saved-score key, where the checksum is the hexadecimal MD5 digest
    (RFC 1321) of  key hex(score * prime); getScore reads that value back,
    checks its shape, its checksum and its key, and divides the prime out
    again. The digest itself is a parameter; the preferences store is a map
    from keys to strings. */
module ScoreGuard {
  import opened Wrappers

  /** The exceptions the guard throws: init twice ("Is already
      initiated."), use before init ("Need to run init(Context) first"),
      a rejected stored value ("Wrong score key."), and the exceptions of
      substring, Long.parseLong and the long division. */
  datatype GuardError =
    | AlreadyInitialised
    | NotInitialised
    | WrongScoreKey
    | IndexOutOfBounds
    | NumberFormat
    | DivisionByZero

  /* ----- Java's fixed-width integers ----- */

  const LongModulus: int := 0x1_0000_0000_0000_0000
  const LongMin: int := -0x8000_0000_0000_0000
  const LongMax: int := 0x7FFF_FFFF_FFFF_FFFF
  const IntModulus: int := 0x1_0000_0000
  const IntMin: int := -0x8000_0000
  const IntMax: int := 0x7FFF_FFFF

  predicate IsLong(x: int) {
    LongMin <= x <= LongMax
  }

  predicate IsInt(x: int) {
    IntMin <= x <= IntMax
  }

  /** The result of a long operation whose exact value is x: the two's
      complement wrap to 64 bits. */
  function WrapLong(x: int): (r: int)
    ensures IsLong(r)
    ensures (r - x) % LongModulus == 0
    ensures IsLong(x) ==> r == x
  {
    (x - LongMin) % LongModulus + LongMin
  }

  /** The (int) cast of a long: its low 32 bits, as a signed int. */
  function WrapInt(x: int): (r: int)
    ensures IsInt(r)
    ensures (r - x) % IntModulus == 0
    ensures IsInt(x) ==> r == x
  {
    (x - IntMin) % IntModulus + IntMin
  }

  /** The 64 bits of a long read as an unsigned number, as
      Long.toHexString reads them. */
  function Unsigned(x: int): (r: nat)
    requires IsLong(x)
    ensures r < LongModulus
    ensures (r - x) % LongModulus == 0
    ensures r > LongMax <==> x < 0
  {
    if x < 0 then x + LongModulus else x
  }

  function Abs(x: int): nat {
    if x < 0 then -x else x
  }

  /** Java's division on longs before the wrap: truncation toward zero. */
  function JavaDiv(a: int, b: int): (q: int)
    requires b != 0
    ensures a >= 0 && b > 0 ==> q == a / b
  {
    var m: int := Abs(a) / Abs(b);
    if (a < 0) == (b < 0) then m else -m
  }

  /** A multiple of a positive number divided by it gives the factor back. */
  lemma MulDivCancel(a: nat, b: int)
    requires b > 0
    ensures (a * b) / b == a
  {
    var n := a * b;
    var q, r := n / b, n % b;
    var d := a - q;
    assert d * b == r by {
      assert n == q * b + r;
    }
    ProductBounds(d, b);
  }

  /** A non-zero multiple of a positive b is at least b away from 0. */
  lemma ProductBounds(d: int, b: int)
    requires b > 0
    ensures d >= 1 ==> d * b >= b
    ensures d <= -1 ==> d * b <= -b
  {
    if d >= 1 {
      assert (d - 1) * b >= 0;
    }
    if d <= -1 {
      assert (-d - 1) * b >= 0;
    }
  }

  /* ----- Hexadecimal digits ----- */

  /** The ASCII characters Character.digit(c, 16) accepts. */
  predicate IsHexChar(c: char) {
    '0' <= c <= '9' || 'a' <= c <= 'f' || 'A' <= c <= 'F'
  }

  predicate AllHex(s: string) {
    forall i :: 0 <= i < |s| ==> IsHexChar(s[i])
  }

  /** Character.digit(c, 16) on an ASCII hex digit. */
  function DigitValue(c: char): (d: int)
    requires IsHexChar(c)
    ensures 0 <= d < 16
  {
    if '0' <= c <= '9' then c as int - '0' as int
    else if 'a' <= c <= 'f' then c as int - 'a' as int + 10
    else c as int - 'A' as int + 10
  }

  /** The digit toHexString writes for d: lower case. */
  function HexChar(d: int): (c: char)
    requires 0 <= d < 16
    ensures IsHexChar(c) && DigitValue(c) == d
    ensures !('A' <= c <= 'Z') && c != ':' && c != '-' && c != '+'
    ensures c == '0' <==> d == 0
  {
    if d < 10 then ('0' as int + d) as char else ('a' as int + d - 10) as char
  }

  /** Long.toHexString and BigInteger.toString(16) of a non-negative
      number: lower-case hex digits, most significant first, with no
      leading zero, and "0" for 0. */
  function ToHex(n: nat): (s: string)
    ensures |s| >= 1 && AllHex(s)
    ensures forall i :: 0 <= i < |s| ==> !('A' <= s[i] <= 'Z') && s[i] != ':' && s[i] != '-' && s[i] != '+'
    ensures n == 0 <==> s == "0"
    ensures n > 0 ==> s[0] != '0'
    decreases n
  {
    if n < 16 then [HexChar(n)] else ToHex(n / 16) + [HexChar(n % 16)]
  }

  /** The number hex digits write, most significant first. */
  function HexValue(s: string): (v: nat)
    requires AllHex(s)
    decreases |s|
  {
    if s == [] then 0 else HexValue(s[..|s| - 1]) * 16 + DigitValue(s[|s| - 1])
  }

  /** Reading back what toHexString wrote gives the number. */
  lemma {:induction false} HexRoundTrip(n: nat)
    ensures HexValue(ToHex(n)) == n
    decreases n
  {
    if n >= 16 {
      HexRoundTrip(n / 16);
      var s := ToHex(n);
      assert s[..|s| - 1] == ToHex(n / 16);
    }
  }

  /** Long.parseLong(s, 16): an optional '-' or '+', then at least one hex
      digit, and the value must fit in a long; anything else throws
      NumberFormatException. */
  function ParseLongHex(s: string): (r: Result<int, GuardError>)
    ensures r.Ok? ==> IsLong(r.value)
    ensures r.Err? ==> r.error == NumberFormat
    ensures s == [] ==> r.Err?
    ensures |s| > 0 && AllHex(s) ==> (r.Ok? <==> HexValue(s) <= LongMax)
    ensures |s| > 0 && AllHex(s) && r.Ok? ==> r.value == HexValue(s)
  {
    if s == [] then Err(NumberFormat)
    else
      var signed := s[0] == '-' || s[0] == '+';
      var digits := if signed then s[1..] else s;
      if digits == [] || !AllHex(digits) then Err(NumberFormat)
      else
        var v: int := if s[0] == '-' then 0 - HexValue(digits) else HexValue(digits);
        if IsLong(v) then Ok(v) else Err(NumberFormat)
  }

  /* ----- Strings ----- */

  /** String.toLowerCase on ASCII letters; other characters are kept. */
  function LowerAscii(s: string): (r: string)
    ensures |r| == |s|
    ensures forall i :: 0 <= i < |r| ==> !('A' <= r[i] <= 'Z')
    ensures (forall i :: 0 <= i < |s| ==> !('A' <= s[i] <= 'Z')) ==> r == s
  {
    seq(|s|, i requires 0 <= i < |s| => if 'A' <= s[i] <= 'Z' then (s[i] as int + 32) as char else s[i])
  }

  /** The pieces of s between its ':' characters, empty ones included. */
  function Pieces(s: string): (p: seq<string>)
    ensures |p| >= 1
    ensures forall i :: 0 <= i < |p| ==> ':' !in p[i]
    decreases |s|
  {
    if s == [] then [[]]
    else
      var rest := Pieces(s[1..]);
      if s[0] == ':' then [[]] + rest else [[s[0]] + rest[0]] + rest[1..]
  }

  /** The pieces again, glued back with ':' between them. */
  function Join(p: seq<string>): (s: string)
    requires |p| >= 1
    decreases |p|
  {
    if |p| == 1 then p[0] else p[0] + ":" + Join(p[1..])
  }

  /** Splitting at the colons and gluing back gives the string. */
  lemma {:induction false} JoinPieces(s: string)
    ensures Join(Pieces(s)) == s
    decreases |s|
  {
    if s != [] {
      var rest := Pieces(s[1..]);
      JoinPieces(s[1..]);
      if s[0] == ':' {
        assert s == ":" + s[1..];
      } else if |rest| == 1 {
        assert s == [s[0]] + s[1..];
      } else {
        assert Join(rest) == rest[0] + ":" + Join(rest[1..]);
        assert s == [s[0]] + s[1..];
      }
    }
  }

  /** A string without ':' is one piece. */
  lemma {:induction false} PiecesOfPlain(s: string)
    requires ':' !in s
    ensures Pieces(s) == [s]
    decreases |s|
  {
    if s != [] {
      PiecesOfPlain(s[1..]);
      assert s == [s[0]] + s[1..];
    }
  }

  /** A leading piece without ':' followed by a colon is split off whole. */
  lemma {:induction false} PiecesOfColon(a: string, b: string)
    requires ':' !in a
    ensures Pieces(a + ":" + b) == [a] + Pieces(b)
    decreases |a|
  {
    if a == [] {
      assert a + ":" + b == [':'] + b;
      assert ([':'] + b)[1..] == b;
    } else {
      var s := a + ":" + b;
      assert s[1..] == a[1..] + ":" + b;
      PiecesOfColon(a[1..], b);
      assert [a[0]] + a[1..] == a;
    }
  }

  /** Java drops the empty pieces at the end of a split. */
  function DropTrailingEmpty(p: seq<string>): (r: seq<string>)
    ensures |r| <= |p| && r == p[..|r|]
    ensures r == [] || r[|r| - 1] != []
    ensures forall i :: |r| <= i < |p| ==> p[i] == []
    decreases |p|
  {
    if p == [] || p[|p| - 1] != [] then p else DropTrailingEmpty(p[..|p| - 1])
  }

  /** String.split(":"): without a colon the string itself; otherwise the
      pieces between colons, with the empty ones at the end dropped. */
  function SplitColon(s: string): (parts: seq<string>)
    ensures forall i :: 0 <= i < |parts| ==> ':' !in parts[i]
    ensures ':' !in s ==> parts == [s]
    ensures ':' in s ==> parts == [] || parts[|parts| - 1] != []
  {
    if ':' !in s then [s] else DropTrailingEmpty(Pieces(s))
  }

  /** Two colon-free parts joined by one colon split back into the two,
      provided the second is not empty. */
  lemma SplitTwo(a: string, b: string)
    requires ':' !in a && ':' !in b && b != []
    ensures SplitColon(a + ":" + b) == [a, b]
  {
    var s := a + ":" + b;
    assert s[|a|] == ':';
    PiecesOfColon(a, b);
    PiecesOfPlain(b);
  }

  /* ----- The stored value ----- */

  /** The MD5 digest of a string's bytes, read as the non-negative number
      new BigInteger(1, digest) makes of it. */
  type Md5 = string -> nat

  /** calculateChecksum: the digest in hexadecimal, leading zeros dropped. */
  function Checksum(md5: Md5, s: string): (c: string)
    ensures |c| >= 1 && AllHex(c) && ':' !in c
  {
    ToHex(md5(s))
  }

  /** The part of the stored value after the colon: the key, then the
      product of the score and the prime, as a long, in hex. */
  function ScoreValue(key: string, prime: int, score: int): (v: string)
    ensures |v| > |key| && v[..|key|] == key
    ensures ':' !in key ==> ':' !in v
  {
    key + ToHex(Unsigned(WrapLong(score * prime)))
  }

  /** The string saveScore stores: checksum ":" value. */
  function Encode(md5: Md5, key: string, prime: int, score: int): (s: string)
    ensures ':' in s
  {
    var value := ScoreValue(key, prime, score);
    var c := Checksum(md5, value);
    assert (c + ":" + value)[|c|] == ':';
    c + ":" + value
  }

  /** What getScore makes of the string it finds (None: nothing stored,
      which reads as "default"). It throws when the value does not split
      into two parts, when the checksum does not match, when the value is
      shorter than the key or does not start with it (ignoring case),
      and when the rest is not a long in hex. */
  function Decode(md5: Md5, key: string, prime: int, saved: Option<string>): (r: Result<int, GuardError>)
    ensures saved == None || saved == Some("default") ==> r == Ok(0)
    ensures r.Ok? ==> IsInt(r.value)
    ensures r.Ok? && saved.Some? && saved.value != "default" ==>
              var p := SplitColon(saved.value);
              && |p| == 2 && p[0] == Checksum(md5, p[1])
              && |key| <= |p[1]| && LowerAscii(p[1][..|key|]) == key
    ensures saved.Some? && saved.value != "default" && |SplitColon(saved.value)| != 2 ==> r == Err(WrongScoreKey)
  {
    var s := if saved.Some? then saved.value else "default";
    if s == "default" then Ok(0)
    else
      var parts := SplitColon(s);
      if |parts| != 2 then Err(WrongScoreKey)
      else
        var checksum, value := parts[0], parts[1];
        if checksum != Checksum(md5, value) then Err(WrongScoreKey)
        else if |key| > |value| then Err(IndexOutOfBounds)
        else if LowerAscii(value[..|key|]) != key then Err(WrongScoreKey)
        else ReadScore(value[|key|..], prime)
  }

  /** The last step of getScore: parse the hex digits as a long, divide
      the prime out and cast to int. */
  function ReadScore(hex: string, prime: int): (r: Result<int, GuardError>)
    ensures r.Ok? ==> IsInt(r.value)
    ensures ParseLongHex(hex).Err? ==> r == Err(NumberFormat)
    ensures ParseLongHex(hex).Ok? && prime == 0 ==> r == Err(DivisionByZero)
  {
    match ParseLongHex(hex)
    case Err(e) => Err(e)
    case Ok(b) =>
      if prime == 0 then Err(DivisionByZero)
      else Ok(WrapInt(WrapLong(JavaDiv(b, prime))))
  }

  /** A key getScore can match: no upper-case letter (the prefix is
      lower-cased before the comparison) and no colon (the separator). */
  predicate PlainKey(key: string) {
    ':' !in key && forall i :: 0 <= i < |key| ==> !('A' <= key[i] <= 'Z')
  }

  /** The stored value splits back into the checksum and the value, and
      the value into the key and the hex digits. */
  lemma EncodeParts(md5: Md5, key: string, prime: int, score: int)
    requires PlainKey(key)
    ensures var value := ScoreValue(key, prime, score);
            var s := Encode(md5, key, prime, score);
            && s != "default"
            && SplitColon(s) == [Checksum(md5, value), value]
            && value[..|key|] == key
            && value[|key|..] == ToHex(Unsigned(WrapLong(score * prime)))
  {
    var value := ScoreValue(key, prime, score);
    var c := Checksum(md5, value);
    SplitTwo(c, value);
    assert ':' !in "default";
  }

  /** A product of a non-negative score and a positive prime that does
      not exceed Long.MAX_VALUE is stored exactly. */
  lemma ProductFitsLong(score: int, prime: int)
    requires prime > 0 && 0 <= score && score * prime <= LongMax
    ensures WrapLong(score * prime) == score * prime
    ensures Unsigned(WrapLong(score * prime)) == score * prime
  {
    ProductBounds(score, prime);
    if score == 0 {
      assert score * prime == 0;
    }
  }

  /** A stored value that saveScore wrote passes every check up to the
      parse: what getScore returns is what its hex digits read as. */
  lemma DecodeStored(md5: Md5, key: string, prime: int, score: int)
    requires PlainKey(key)
    ensures Decode(md5, key, prime, Some(Encode(md5, key, prime, score)))
            == ReadScore(ToHex(Unsigned(WrapLong(score * prime))), prime)
  {
    var value := ScoreValue(key, prime, score);
    EncodeParts(md5, key, prime, score);
    assert LowerAscii(value[..|key|]) == key;
  }

  /** Round trip: getScore reads back the score saveScore stored, when the
      score is not negative, its product with the (positive) prime fits in
      a long, and the key is plain. */
  lemma RoundTrip(md5: Md5, key: string, prime: int, score: int)
    requires PlainKey(key) && IsInt(score) && IsLong(prime)
    requires prime > 0 && 0 <= score && score * prime <= LongMax
    ensures Decode(md5, key, prime, Some(Encode(md5, key, prime, score))) == Ok(score)
  {
    var n := score * prime;
    ProductFitsLong(score, prime);
    DecodeStored(md5, key, prime, score);
    HexRoundTrip(n);
    assert ParseLongHex(ToHex(n)) == Ok(n);
    MulDivCancel(score, prime);
    assert JavaDiv(n, prime) == score;
    assert WrapLong(score) == score && WrapInt(score) == score;
  }

  /** When the product overflows into a negative long, its unsigned hex is
      too large for Long.parseLong: getScore throws instead of returning
      the score. */
  lemma NegativeProductUnreadable(md5: Md5, key: string, prime: int, score: int)
    requires PlainKey(key)
    requires WrapLong(score * prime) < 0
    ensures Decode(md5, key, prime, Some(Encode(md5, key, prime, score))) == Err(NumberFormat)
  {
    DecodeStored(md5, key, prime, score);
    var u := Unsigned(WrapLong(score * prime));
    HexRoundTrip(u);
  }

  /** With an upper-case letter in the key no stored value is accepted:
      the lower-cased prefix never equals it. */
  lemma UpperCaseKeyRejects(md5: Md5, key: string, prime: int, saved: string, k: int)
    requires 0 <= k < |key| && 'A' <= key[k] <= 'Z'
    requires saved != "default"
    ensures Decode(md5, key, prime, Some(saved)).Err?
  {
    var parts := SplitColon(saved);
    if |parts| == 2 && |key| <= |parts[1]| {
      var low := LowerAscii(parts[1][..|key|]);
      assert !('A' <= low[k] <= 'Z');
    }
  }

  /* ----- The singleton ----- */

  /** The guard's fields: `initialised` stands for mEditor != null and
      `store` for the preferences file behind mSharedPref and mEditor. */
  class Guard {
    var initialised: bool
    var store: map<string, string>
    var savedScoreKey: string
    var scoreKey: string
    var bigPrime: int
    const md5: Md5

    /** The shared instance before init. */
    constructor (md5: Md5)
      ensures !initialised && this.md5 == md5
    {
      this.md5 := md5;
      initialised := false;
      store := map[];
      savedScoreKey := "";
      scoreKey := "";
      bigPrime := 0;
    }

    /** init: refuses a second call; otherwise takes the preferences store,
      the saved-score key, the prime (a long) and the score key. */
    method Init(prefs: map<string, string>, savedKey: string, prime: int, key: string)
      returns (r: Result<(), GuardError>)
      requires IsLong(prime)
      modifies this
      ensures old(initialised) ==> r == Err(AlreadyInitialised)
      ensures old(initialised) ==>
                && store == old(store) && savedScoreKey == old(savedScoreKey)
                && scoreKey == old(scoreKey) && bigPrime == old(bigPrime)
      ensures !old(initialised) ==>
                && r.Ok? && store == prefs && savedScoreKey == savedKey
                && bigPrime == prime && scoreKey == key
      ensures initialised
    {
      if initialised {
        return Err(AlreadyInitialised);
      }
      store := prefs;
      savedScoreKey := savedKey;
      bigPrime := prime;
      initialised := true;
      scoreKey := key;
      r := Ok(());
    }

    /** What getScore finds under the saved-score key. */
    function Saved(): Option<string>
      reads this
    {
      if savedScoreKey in store then Some(store[savedScoreKey]) else None
    }

    /** saveScore: before init it throws; otherwise it stores the encoded
      score under the saved-score key, and what is stored then reads back
      as the score whenever the round trip's conditions hold. */
    method SaveScore(score: int) returns (r: Result<(), GuardError>)
      requires IsInt(score)
      modifies this
      ensures !old(initialised) ==> r == Err(NotInitialised) && store == old(store)
      ensures old(initialised) ==>
                r.Ok? && store == old(store)[savedScoreKey := Encode(md5, scoreKey, bigPrime, score)]
      ensures old(initialised) && PlainKey(scoreKey) && IsLong(bigPrime) && bigPrime > 0
              && 0 <= score && score * bigPrime <= LongMax ==>
                Decode(md5, scoreKey, bigPrime, Saved()) == Ok(score)
      ensures initialised == old(initialised) && savedScoreKey == old(savedScoreKey)
      ensures scoreKey == old(scoreKey) && bigPrime == old(bigPrime)
    {
      if !initialised {
        return Err(NotInitialised);
      }
      var value := Encode(md5, scoreKey, bigPrime, score);
      store := store[savedScoreKey := value];
      if PlainKey(scoreKey) && IsLong(bigPrime) && bigPrime > 0 && 0 <= score && score * bigPrime <= LongMax {
        RoundTrip(md5, scoreKey, bigPrime, score);
      }
      r := Ok(());
    }

    /** getScore: before init it throws; otherwise 0 when nothing (or
      "default") is stored, and else the decoded score or its exception. */
    method GetScore() returns (r: Result<int, GuardError>)
      ensures !initialised ==> r == Err(NotInitialised)
      ensures initialised ==> r == Decode(md5, scoreKey, bigPrime, Saved())
      ensures initialised && Saved() == None ==> r == Ok(0)
      ensures r.Ok? ==> IsInt(r.value)
    {
      if !initialised {
        return Err(NotInitialised);
      }
      r := Decode(md5, scoreKey, bigPrime, Saved());
    }
  }
}
