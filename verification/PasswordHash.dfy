/**
 The password hash of a user: hex of the salt, a colon, hex of the derived key. The derivation (scrypt,
 RFC 7914) is a parameter.
 */
module PasswordHash {
  import opened Wrappers
  import opened KeyGenerator

  const SALT_LEN := 16
  const HASH_LEN := 64

  type Derivation = (string, string) -> seq<Byte>

  function HexDigit(i: int): char
    requires 0 <= i < 16
  {
    if i < 10 then '0' + i as char else 'a' + (i - 10) as char
  }

  function Hex(b: seq<Byte>): string {
    if b == [] then "" else [HexDigit(b[0] / 16), HexDigit(b[0] % 16)] + Hex(b[1..])
  }

  /** strings.Split by a one-character separator. */
  function Split(s: string, sep: char): (parts: seq<string>)
    ensures parts != []
  {
    if s == "" then [""]
    else
      var rest := Split(s[1..], sep);
      if s[0] == sep then [""] + rest else [[s[0]] + rest[0]] + rest[1..]
  }

  lemma {:induction false} HexHasNoColon(b: seq<Byte>)
    ensures |Hex(b)| == 2 * |b| && ':' !in Hex(b)
  {
    if b != [] {
      HexHasNoColon(b[1..]);
    }
  }

  lemma {:induction false} SplitWithout(s: string, sep: char)
    requires sep !in s
    ensures Split(s, sep) == [s]
  {
    if s != "" {
      SplitWithout(s[1..], sep);
      assert [s[0]] + s[1..] == s;
    }
  }

  lemma {:induction false} SplitAt(a: string, sep: char, b: string)
    requires sep !in a
    ensures Split(a + [sep] + b, sep) == [a] + Split(b, sep)
  {
    var s := a + [sep] + b;
    if a == "" {
      assert s == [sep] + b;
    } else {
      assert s[1..] == a[1..] + [sep] + b;
      SplitAt(a[1..], sep, b);
      assert [a[0]] + a[1..] == a;
    }
  }

  lemma {:induction false} FirstPartHasNoSeparator(s: string, sep: char)
    ensures sep !in Split(s, sep)[0]
  {
    if s != "" {
      FirstPartHasNoSeparator(s[1..], sep);
    }
  }

  function SaltOf(hash: string): string {
    Split(hash, ':')[0]
  }

  /** The hash SetPassword leaves on a user whose stored document, if there is one, has the given hash. */
  function HashFor(stored: Option<string>, password: string, random: seq<Byte>, scrypt: Derivation): string {
    var salt := if stored.Some? && SaltOf(stored.value) != "" then SaltOf(stored.value) else Hex(random);
    salt + ":" + Hex(scrypt(password, salt))
  }

  method SetPassword(stored: Option<string>, password: string, random: seq<Byte>, scrypt: Derivation) returns (hash: string)
    ensures hash == HashFor(stored, password, random, scrypt)
  {
    var salt: string;
    if stored.None? || Split(stored.value, ':')[0] == "" {
      salt := Hex(random);
    } else {
      var s := Split(stored.value, ':');
      salt := s[0];
    }
    var p := scrypt(password, salt);
    hash := salt + ":" + Hex(p);
  }

  /** A first hash has 161 characters and splits back into its salt and its key. */
  lemma FreshHash(stored: Option<string>, password: string, random: seq<Byte>, scrypt: Derivation)
    requires |random| == SALT_LEN && |scrypt(password, Hex(random))| == HASH_LEN
    requires stored.Some? ==> SaltOf(stored.value) == ""
    ensures var hash := HashFor(stored, password, random, scrypt);
            && |hash| == 161
            && Split(hash, ':') == [Hex(random), Hex(scrypt(password, Hex(random)))]
  {
    HexHasNoColon(random);
    var key := scrypt(password, Hex(random));
    HexHasNoColon(key);
    SplitAt(Hex(random), ':', Hex(key));
    SplitWithout(Hex(key), ':');
  }

  /** Whatever was stored first, every later hash keeps the salt of the one before it, and the same
      password gives the same hash. */
  lemma HashIsAFixpoint(stored: Option<string>, first: string, second: string, random: seq<Byte>, random': seq<Byte>, scrypt: Derivation)
    requires |random| > 0
    ensures var hash := HashFor(stored, first, random, scrypt);
            && HashFor(Some(hash), first, random', scrypt) == hash
            && SaltOf(HashFor(Some(hash), second, random', scrypt)) == SaltOf(hash)
            && SaltOf(hash) != ""
  {
    var salt := if stored.Some? && SaltOf(stored.value) != "" then SaltOf(stored.value) else Hex(random);
    HexHasNoColon(random);
    if stored.Some? {
      FirstPartHasNoSeparator(stored.value, ':');
    }
    SplitAt(salt, ':', Hex(scrypt(first, salt)));
    SplitAt(salt, ':', Hex(scrypt(second, salt)));
  }

  function Nibble(c: char): int {
    if '0' <= c <= '9' then (c - '0') as int else if 'a' <= c <= 'f' then (c - 'a') as int + 10 else 0
  }

  function Unhex(s: string): seq<int> {
    if |s| < 2 then [] else [Nibble(s[0]) * 16 + Nibble(s[1])] + Unhex(s[2..])
  }

  /** The encoding is the standard one, in lower case: decoding it gives the bytes back. */
  lemma {:induction false} HexDecodes(b: seq<Byte>)
    ensures Unhex(Hex(b)) == b
    ensures forall c | c in Hex(b) :: '0' <= c <= '9' || 'a' <= c <= 'f'
  {
    if b != [] {
      HexDecodes(b[1..]);
      assert Hex(b)[2..] == Hex(b[1..]);
      assert b == [b[0]] + b[1..];
    }
  }
}
