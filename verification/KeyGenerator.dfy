/** The random keys of an SDK connection: base64 (section 4 of RFC 4648) with three characters deleted. */
module KeyGenerator {
  type Byte = b: int | 0 <= b < 256

  function Digit(i: int): (d: char)
    requires 0 <= i < 64
    ensures if i < 62 then Alphanumeric(d) else d in "+/"
  {
    if i < 26 then 'A' + i as char
    else if i < 52 then 'a' + (i - 26) as char
    else if i < 62 then '0' + (i - 52) as char
    else if i == 62 then '+'
    else '/'
  }

  predicate Alphanumeric(c: char) {
    'A' <= c <= 'Z' || 'a' <= c <= 'z' || '0' <= c <= '9'
  }

  function Base64(b: seq<Byte>): string {
    if |b| == 0 then ""
    else if |b| == 1 then [Digit(b[0] / 4), Digit(b[0] % 4 * 16), '=', '=']
    else if |b| == 2 then [Digit(b[0] / 4), Digit(b[0] % 4 * 16 + b[1] / 16), Digit(b[1] % 16 * 4), '=']
    else Quad(b[0], b[1], b[2]) + Base64(b[3..])
  }

  function Quad(x: Byte, y: Byte, z: Byte): (s: string)
    ensures |s| == 4 && Encoded(s)
  {
    [Digit(x / 4), Digit(x % 4 * 16 + y / 16), Digit(y % 16 * 4 + z / 64), Digit(z % 64)]
  }

  /** strings.Replace of a one-character string by the empty one, everywhere. */
  function Deleted(s: string, c: char): string {
    if s == "" then "" else if s[0] == c then Deleted(s[1..], c) else [s[0]] + Deleted(s[1..], c)
  }

  function GenerateKey(prefix: string, b: seq<Byte>): string {
    prefix + Deleted(Deleted(Deleted(Base64(b), '='), '/'), '+')
  }

  function Filtered(s: string): string {
    if s == "" then "" else if Alphanumeric(s[0]) then [s[0]] + Filtered(s[1..]) else Filtered(s[1..])
  }

  predicate Encoded(s: string) {
    forall c | c in s :: Alphanumeric(c) || c in "=/+"
  }

  /** On a base64 string the three replacements are one filter, which keeps exactly the letters and digits. */
  lemma {:induction false} DeletionsAreOneFilter(s: string)
    requires Encoded(s)
    ensures Deleted(Deleted(Deleted(s, '='), '/'), '+') == Filtered(s)
    ensures forall c | c in Filtered(s) :: Alphanumeric(c)
    ensures |Filtered(s)| <= |s|
  {
    if s != "" {
      DeletionsAreOneFilter(s[1..]);
      var c, once := s[0], Deleted(s[1..], '=');
      var twice := Deleted(once, '/');
      assert c in s;
      if c != '=' {
        assert ([c] + once)[1..] == once;
        if c != '/' {
          assert Deleted([c] + once, '/') == [c] + twice;
          assert ([c] + twice)[1..] == twice;
        }
      }
    }
  }

  lemma {:induction false} FilteredAppend(s: string, t: string)
    ensures Filtered(s + t) == Filtered(s) + Filtered(t)
  {
    if s == "" {
      assert s + t == t;
    } else {
      assert (s + t)[0] == s[0] && (s + t)[1..] == s[1..] + t;
      FilteredAppend(s[1..], t);
      assert [s[0]] + (Filtered(s[1..]) + Filtered(t)) == ([s[0]] + Filtered(s[1..])) + Filtered(t);
    }
  }

  lemma FilteredCons(c: char, t: string)
    ensures Filtered([c] + t) == if Alphanumeric(c) then [c] + Filtered(t) else Filtered(t)
  {
  }

  /** The padded group at the end: its last sextet is a multiple of 4, so it keeps a character. */
  lemma LastGroup(b: seq<Byte>)
    requires 1 <= |b| <= 2
    ensures Encoded(Base64(b)) && |Base64(b)| == 4
    ensures 1 <= |Filtered(Base64(b))| <= |b| + 1
  {
    var s := Base64(b);
    FilteredCons(s[0], s[1..]);
    FilteredCons(s[1], s[2..]);
    FilteredCons(s[2], s[3..]);
    assert s == [s[0]] + s[1..] && s[1..] == [s[1]] + s[2..] && s[2..] == [s[2]] + s[3..] && s[3..] == "=";
    assert Filtered("=") == "";
  }

  /** The most characters a base64 string of n bytes keeps. */
  function Kept(n: nat): nat {
    n / 3 * 4 + (if n % 3 == 0 then 0 else n % 3 + 1)
  }

  lemma KeptStep(n: nat)
    requires n >= 3
    ensures Kept(n) == Kept(n - 3) + 4 && (n + 2) / 3 == (n - 3 + 2) / 3 + 1 && n % 3 == (n - 3) % 3
  {
  }

  lemma {:induction false} Base64Shape(b: seq<Byte>)
    ensures Encoded(Base64(b))
    ensures |Base64(b)| == (|b| + 2) / 3 * 4
    ensures |Filtered(Base64(b))| <= Kept(|b|)
    ensures |b| % 3 != 0 ==> Filtered(Base64(b)) != ""
  {
    if 1 <= |b| <= 2 {
      LastGroup(b);
    } else if |b| >= 3 {
      Base64Shape(b[3..]);
      KeptStep(|b|);
      var quad := Quad(b[0], b[1], b[2]);
      FilteredAppend(quad, Base64(b[3..]));
      FilteredShrinks(quad);
    }
  }

  lemma {:induction false} FilteredShrinks(s: string)
    ensures |Filtered(s)| <= |s|
  {
    if s != "" {
      FilteredShrinks(s[1..]);
    }
  }

  /** Every generated key is alphanumeric and has between 1 and 43 characters. It is never empty because the
      last sextet of 32 bytes carries four data bits, a multiple of 4, so is neither 62 nor 63. */
  lemma GeneratedKeyBounds(b: seq<Byte>)
    requires |b| == 32
    ensures GenerateKey("", b) == Filtered(Base64(b))
    ensures 1 <= |GenerateKey("", b)| <= 43
    ensures forall c | c in GenerateKey("", b) :: Alphanumeric(c)
  {
    Base64Shape(b);
    DeletionsAreOneFilter(Base64(b));
  }

  function Repeated(x: Byte, n: nat): (b: seq<Byte>)
    ensures |b| == n && forall i | 0 <= i < n :: b[i] == x
  {
    seq(n, i => x)
  }

  lemma FilteredFour(s: string)
    requires |s| == 4
    ensures (forall c | c in s :: Alphanumeric(c)) ==> |Filtered(s)| == 4
    ensures (forall c | c in s :: !Alphanumeric(c)) ==> Filtered(s) == ""
  {
    FilteredCons(s[0], s[1..]);
    FilteredCons(s[1], s[2..]);
    FilteredCons(s[2], s[3..]);
    FilteredCons(s[3], "");
    assert s == [s[0]] + s[1..] && s[1..] == [s[1]] + s[2..] && s[2..] == [s[2]] + s[3..] && s[3..] == [s[3]] + "";
  }

  lemma LastGroups()
    ensures |Filtered(Base64([0, 0]))| == 3 && Filtered(Base64([255, 255])) == "8"
  {
  }

  lemma {:induction false} ZeroBytes(n: nat)
    requires n % 3 == 2
    ensures |Filtered(Base64(Repeated(0, n)))| == Kept(n)
  {
    if n == 2 {
      LastGroups();
      assert Repeated(0, n) == [0, 0];
    } else {
      ZeroBytes(n - 3);
      KeptStep(n);
      assert Repeated(0, n)[3..] == Repeated(0, n - 3);
      FilteredAppend(Quad(0, 0, 0), Base64(Repeated(0, n - 3)));
      FilteredFour(Quad(0, 0, 0));
    }
  }

  lemma Base64Split(b: seq<Byte>)
    requires |b| >= 3
    ensures Base64(b) == Quad(b[0], b[1], b[2]) + Base64(b[3..])
  {
  }

  lemma SlashQuad()
    ensures Quad(255, 255, 255) == "////"
  {
  }

  lemma FullStep(b: seq<Byte>)
    requires |b| >= 3 && b[0] == b[1] == b[2] == 255
    ensures Filtered(Base64(b)) == Filtered(Base64(b[3..]))
  {
    Base64Split(b);
    SlashQuad();
    DroppedFour("////", Base64(b[3..]));
  }

  lemma {:induction false} FullBytes(n: nat)
    requires n % 3 == 2
    ensures Filtered(Base64(Repeated(255, n))) == "8"
  {
    if n == 2 {
      LastGroups();
      assert Repeated(255, n) == [255, 255];
    } else {
      KeptStep(n);
      FullBytes(n - 3);
      FullStep(Repeated(255, n));
      assert Repeated(255, n)[3..] == Repeated(255, n - 3);
    }
  }

  lemma DroppedFour(s: string, t: string)
    requires |s| == 4 && forall c | c in s :: !Alphanumeric(c)
    ensures Filtered(s + t) == Filtered(t)
  {
    FilteredAppend(s, t);
    FilteredFour(s);
  }

  /** Both bounds are attained: the deletions can leave a key of one character. */
  lemma KeyBoundsAreTight()
    ensures exists b: seq<Byte> :: |b| == 32 && |GenerateKey("", b)| == 43
    ensures exists b: seq<Byte> :: |b| == 32 && GenerateKey("", b) == "8"
  {
    ZeroBytes(32);
    FullBytes(32);
    GeneratedKeyBounds(Repeated(0, 32));
    GeneratedKeyBounds(Repeated(255, 32));
  }

  /** The value of a base64 character, by the table of section 4 of RFC 4648. */
  function Sextet(c: char): int {
    if 'A' <= c <= 'Z' then (c - 'A') as int
    else if 'a' <= c <= 'z' then (c - 'a') as int + 26
    else if '0' <= c <= '9' then (c - '0') as int + 52
    else if c == '+' then 62
    else 63
  }

  /** Decoding, group by group; a padded group is the last. */
  function Decoded(s: string): seq<int> {
    if |s| < 4 then []
    else
      var a, b, c, d := Sextet(s[0]), Sextet(s[1]), Sextet(s[2]), Sextet(s[3]);
      if s[2] == '=' then [a * 4 + b / 16]
      else if s[3] == '=' then [a * 4 + b / 16, b % 16 * 16 + c / 4]
      else [a * 4 + b / 16, b % 16 * 16 + c / 4, c % 4 * 64 + d] + Decoded(s[4..])
  }

  lemma SextetOfDigit(i: int)
    requires 0 <= i < 64
    ensures Sextet(Digit(i)) == i && Digit(i) != '='
  {
  }

  lemma DecodedFour(a: char, b: char, c: char, d: char, t: string)
    requires c != '=' && d != '='
    ensures Decoded([a, b, c, d] + t) ==
            [Sextet(a) * 4 + Sextet(b) / 16, Sextet(b) % 16 * 16 + Sextet(c) / 4, Sextet(c) % 4 * 64 + Sextet(d)] + Decoded(t)
  {
    var s := [a, b, c, d] + t;
    assert s[4..] == t;
  }

  lemma SextetsOfBytes(x: Byte, y: Byte, z: Byte)
    ensures x / 4 * 4 + (x % 4 * 16 + y / 16) / 16 == x
    ensures (x % 4 * 16 + y / 16) % 16 * 16 + (y % 16 * 4 + z / 64) / 4 == y
    ensures (y % 16 * 4 + z / 64) % 4 * 64 + z % 64 == z
  {
  }

  lemma DecodedQuad(x: Byte, y: Byte, z: Byte, t: string)
    ensures Decoded(Quad(x, y, z) + t) == [x, y, z] + Decoded(t)
  {
    var a, b, c, d := x / 4, x % 4 * 16 + y / 16, y % 16 * 4 + z / 64, z % 64;
    SextetOfDigit(a);
    SextetOfDigit(b);
    SextetOfDigit(c);
    SextetOfDigit(d);
    DecodedFour(Digit(a), Digit(b), Digit(c), Digit(d), t);
    SextetsOfBytes(x, y, z);
  }

  lemma DecodedLast(a: char, b: char, c: char)
    ensures Decoded([a, b, '=', '=']) == [Sextet(a) * 4 + Sextet(b) / 16]
    ensures c != '=' ==> Decoded([a, b, c, '=']) == [Sextet(a) * 4 + Sextet(b) / 16, Sextet(b) % 16 * 16 + Sextet(c) / 4]
  {
  }

  lemma OneByteDecodes(x: Byte)
    ensures Decoded(Base64([x])) == [x]
  {
    SextetOfDigit(x / 4);
    SextetOfDigit(x % 4 * 16);
    DecodedLast(Digit(x / 4), Digit(x % 4 * 16), '=');
    SextetsOfBytes(x, 0, 0);
  }

  lemma TwoBytesDecode(x: Byte, y: Byte)
    ensures Decoded(Base64([x, y])) == [x, y]
  {
    var a, b, c := x / 4, x % 4 * 16 + y / 16, y % 16 * 4;
    SextetOfDigit(a);
    SextetOfDigit(b);
    SextetOfDigit(c);
    DecodedLast(Digit(a), Digit(b), Digit(c));
    SextetsOfBytes(x, y, 0);
  }

  /** The encoding is the standard one: decoding it gives the bytes back. */
  lemma {:induction false} Base64Decodes(b: seq<Byte>)
    ensures Decoded(Base64(b)) == b
  {
    if |b| == 1 {
      OneByteDecodes(b[0]);
      assert b == [b[0]];
    } else if |b| == 2 {
      TwoBytesDecode(b[0], b[1]);
      assert b == [b[0], b[1]];
    } else if |b| >= 3 {
      Base64Decodes(b[3..]);
      Base64Split(b);
      DecodedQuad(b[0], b[1], b[2], Base64(b[3..]));
      assert b == [b[0], b[1], b[2]] + b[3..];
    }
  }
}
