/**
 * The part of bcrypt (bcryptjs) that decides whether `bcrypt.compare(p, h)`
 * accepts a password: the key derived from the password. The cost factor,
 * the salt's randomness and the Blowfish rounds are not modelled; a hash is
 * the salt together with the derived key, and two passwords verify against
 * each other's hash exactly when their keys are equal.
 *
 * The key is bcrypt's "$2a$"/"$2b$" key schedule input: the UTF-8 bytes of the
 * password followed by a zero byte, repeated cyclically to fill 72 bytes. So
 * only the first 72 bytes of a long password matter.
 */
module Bcrypt {

  type Byte = b: int | 0 <= b < 256

  const KEY_BYTES := 72

  /** The UTF-8 encoding of one Unicode scalar value. */
  function Utf8Char(c: char): (bytes: seq<Byte>)
    ensures 1 <= |bytes| <= 4
    ensures |bytes| == 1 <==> c as int < 0x80
  {
    var n := c as int;
    if n < 0x80 then [n]
    else if n < 0x800 then [0xC0 + n / 64, 0x80 + n % 64]
    else if n < 0x1_0000 then [0xE0 + n / 4096, 0x80 + (n / 64) % 64, 0x80 + n % 64]
    else [0xF0 + n / 262144, 0x80 + (n / 4096) % 64, 0x80 + (n / 64) % 64, 0x80 + n % 64]
  }

  function Utf8(s: string): (bytes: seq<Byte>)
    ensures |s| <= |bytes| <= 4 * |s|
  {
    if s == [] then [] else Utf8Char(s[0]) + Utf8(s[1..])
  }

  lemma {:induction false} Utf8Append(a: string, b: string)
    ensures Utf8(a + b) == Utf8(a) + Utf8(b)
  {
    if a == [] {
      assert a + b == b;
    } else {
      assert (a + b)[0] == a[0];
      assert (a + b)[1..] == a[1..] + b;
      Utf8Append(a[1..], b);
    }
  }

  /** The 72 key bytes bcrypt derives from a password. */
  function Key(p: string): (key: seq<Byte>)
    ensures |key| == KEY_BYTES
  {
    var bytes := Utf8(p) + [0];
    seq(KEY_BYTES, i requires 0 <= i < KEY_BYTES => bytes[i % |bytes|])
  }

  /** A stored bcrypt hash: its salt and the key it was computed from. */
  datatype Hash = Hash(salt: nat, key: seq<Byte>)

  /**
   * `bcrypt.compare(p, h)`: a password of 72 or more bytes is compared by its
   * first 72 bytes only; a shorter one by its bytes and the NUL after them.
   */
  function Verify(p: string, h: Hash): (ok: bool)
    ensures ok ==> |h.key| == KEY_BYTES
    ensures |Utf8(p)| >= KEY_BYTES ==> (ok <==> h.key == Utf8(p)[..KEY_BYTES])
    ensures |Utf8(p)| < KEY_BYTES && ok ==> h.key[..|Utf8(p)| + 1] == Utf8(p) + [0]
  {
    if |Utf8(p)| >= KEY_BYTES then LongPasswordKey(p); Key(p) == h.key
    else ShortPasswordKey(p); Key(p) == h.key
  }

  /** `bcrypt.hash(p, 10)` with the random salt `salt`: the password verifies against its own hash. */
  function HashPassword(p: string, salt: nat): (h: Hash)
    ensures Verify(p, h)
    ensures forall q :: Verify(q, h) <==> Key(q) == Key(p)
  {
    Hash(salt, Key(p))
  }

  /** Kept apart from its callers: stated inline, the solver runs out of resource on it. */
  lemma ModOfSmaller(i: int, n: int)
    requires 0 <= i < n
    ensures i % n == i
  {
  }

  /** A password under 72 UTF-8 bytes keys bcrypt with its bytes followed by a NUL byte. */
  lemma ShortPasswordKey(p: string)
    requires |Utf8(p)| < KEY_BYTES
    ensures Key(p)[..|Utf8(p)| + 1] == Utf8(p) + [0]
  {
    var bytes := Utf8(p) + [0];
    forall i | 0 <= i < |bytes|
      ensures Key(p)[i] == bytes[i]
    {
      ModOfSmaller(i, |bytes|);
    }
  }

  /** A password of 72 or more UTF-8 bytes keys bcrypt with exactly its first 72 bytes. */
  lemma LongPasswordKey(p: string)
    requires |Utf8(p)| >= KEY_BYTES
    ensures Key(p) == Utf8(p)[..KEY_BYTES]
  {
    var bytes := Utf8(p) + [0];
    forall i | 0 <= i < KEY_BYTES
      ensures Key(p)[i] == Utf8(p)[i]
    {
      ModOfSmaller(i, |bytes|);
      assert bytes[i] == Utf8(p)[i];
    }
  }

  /**
   * Only the first 72 bytes count: once a password's UTF-8 encoding reaches
   * 72 bytes, every longer password that extends it verifies against its hash.
   */
  lemma {:induction false} LongPasswordPrefixVerifies(p: string, suffix: string, salt: nat)
    requires |Utf8(p)| >= KEY_BYTES
    ensures Verify(p + suffix, HashPassword(p, salt))
  {
    Utf8Append(p, suffix);
    LongPasswordKey(p);
    LongPasswordKey(p + suffix);
    assert Utf8(p + suffix)[..KEY_BYTES] == Utf8(p)[..KEY_BYTES];
  }

  /** Passwords that start with different ASCII characters do not verify against each other's hash. */
  lemma DifferentAsciiStartRejected(p: string, q: string, salt: nat)
    requires p != [] && q != [] && p[0] != q[0] && p[0] as int < 0x80 && q[0] as int < 0x80
    ensures !Verify(p, HashPassword(q, salt))
  {
    assert Utf8(p)[0] == p[0] as int;
    assert Utf8(q)[0] == q[0] as int;
    assert Key(p)[0] != Key(q)[0];
  }
}
