/**
 * The document values the server stores and returns: the subset of JSON and
 * BSON that `server/index.js` inspects. It gives JavaScript's truthiness (the
 * handlers' `!x` guards), JavaScript's `String(x)`, MongoDB's ObjectId with
 * its 24-digit hexadecimal text form, and MongoDB's comparison order, which
 * `.sort({date: -1})` uses.
 */
module Bson {

  // ObjectId: twelve bytes, written as 24 hexadecimal digits.

  type Nibble = n: int | 0 <= n < 16

  const OBJECT_ID_DIGITS := 24

  type ObjectId = s: seq<Nibble> | |s| == OBJECT_ID_DIGITS witness seq(24, i => 0)

  predicate IsHexChar(c: char)
  {
    '0' <= c <= '9' || 'a' <= c <= 'f' || 'A' <= c <= 'F'
  }

  /** Lower-case hexadecimal digit, as `ObjectId.toHexString` writes it. */
  function HexChar(n: Nibble): (c: char)
    ensures IsHexChar(c) && !('A' <= c <= 'F')
  {
    if n < 10 then (48 + n) as char else (87 + n) as char
  }

  function HexValue(c: char): (n: Nibble)
    requires IsHexChar(c)
  {
    if '0' <= c <= '9' then (c as int) - 48
    else if 'a' <= c <= 'f' then (c as int) - 87
    else (c as int) - 55
  }

  /** The digit `c` with A-F folded to a-f. */
  function LowerHex(c: char): char
  {
    if 'A' <= c <= 'F' then ((c as int) + 32) as char else c
  }

  /** `String(id)`: the 24 lower-case hexadecimal digits of an ObjectId. */
  function ObjectIdString(id: ObjectId): (s: string)
    ensures |s| == OBJECT_ID_DIGITS
    ensures forall i :: 0 <= i < |s| ==> IsHexChar(s[i]) && !('A' <= s[i] <= 'F')
  {
    seq(OBJECT_ID_DIGITS, i requires 0 <= i < OBJECT_ID_DIGITS => HexChar(id[i]))
  }

  /** `s` with the letters A-F folded to a-f. */
  function FoldCase(s: string): (t: string)
    ensures |t| == |s|
  {
    seq(|s|, i requires 0 <= i < |s| => LowerHex(s[i]))
  }

  /**
   * `ObjectId.isValid(s)` for a string: exactly 24 hexadecimal digits, either
   * case; that is, the strings that print some ObjectId once case is folded.
   */
  function IsValidObjectId(s: string): (ok: bool)
    ensures ok <==> exists id: ObjectId :: ObjectIdString(id) == FoldCase(s)
  {
    if |s| == OBJECT_ID_DIGITS && forall i :: 0 <= i < |s| ==> IsHexChar(s[i]) then
      var id: ObjectId := seq(OBJECT_ID_DIGITS, i requires 0 <= i < OBJECT_ID_DIGITS => HexValue(s[i]));
      assert ObjectIdString(id) == FoldCase(s);
      true
    else
      NoObjectIdPrints(s);
      false
  }

  lemma NoObjectIdPrints(s: string)
    requires !(|s| == OBJECT_ID_DIGITS && forall i :: 0 <= i < |s| ==> IsHexChar(s[i]))
    ensures forall id: ObjectId :: ObjectIdString(id) != FoldCase(s)
  {
    if |s| == OBJECT_ID_DIGITS {
      var k :| 0 <= k < |s| && !IsHexChar(s[k]);
      assert !IsHexChar(FoldCase(s)[k]);
    }
  }

  /** `new ObjectId(s)` for a string that `ObjectId.isValid` accepts: the ObjectId that prints as `s` in lower case. */
  function ParseObjectId(s: string): (id: ObjectId)
    requires IsValidObjectId(s)
    ensures ObjectIdString(id) == FoldCase(s)
  {
    seq(OBJECT_ID_DIGITS, i requires 0 <= i < OBJECT_ID_DIGITS => HexValue(s[i]))
  }

  /** The text form of an ObjectId is valid and parses back to the same ObjectId. */
  lemma ObjectIdRoundTrip(id: ObjectId)
    ensures IsValidObjectId(ObjectIdString(id))
    ensures ParseObjectId(ObjectIdString(id)) == id
  {
  }

  /** Two valid ids name the same ObjectId exactly when they differ at most in the case of A-F. */
  lemma SameIdUpToCase(s: string, t: string)
    requires IsValidObjectId(s) && IsValidObjectId(t)
    ensures ParseObjectId(s) == ParseObjectId(t) <==> FoldCase(s) == FoldCase(t)
  {
    ObjectIdRoundTrip(ParseObjectId(s));
    ObjectIdRoundTrip(ParseObjectId(t));
  }

  // Decimal text of integers: JavaScript's `String(n)` for an integral Number.

  function DigitChar(d: int): (c: char)
    requires 0 <= d < 10
    ensures '0' <= c <= '9'
  {
    (48 + d) as char
  }

  predicate AllDigits(s: string)
  {
    forall i :: 0 <= i < |s| ==> '0' <= s[i] <= '9'
  }

  function DecimalNat(n: nat): (s: string)
    ensures |s| >= 1 && AllDigits(s)
  {
    if n < 10 then [DigitChar(n)] else DecimalNat(n / 10) + [DigitChar(n % 10)]
  }

  /** `String(n)` for an integer below 10^21 in magnitude (no exponent form). */
  function Decimal(n: int): string
  {
    if n < 0 then "-" + DecimalNat(-n) else DecimalNat(n)
  }

  /** The value of a string of decimal digits; the inverse of DecimalNat. */
  function DigitsValue(s: string): nat
    requires AllDigits(s)
  {
    if s == [] then 0 else 10 * DigitsValue(s[..|s| - 1]) + (s[|s| - 1] as int - 48)
  }

  function Pow10(k: nat): (p: nat)
    ensures p >= 1
  {
    if k == 0 then 1 else 10 * Pow10(k - 1)
  }

  /** Decimal text reads back as the number it was written from. */
  lemma {:induction false} DecimalRoundTrip(n: nat)
    ensures DigitsValue(DecimalNat(n)) == n
  {
    var s := DecimalNat(n);
    if n >= 10 {
      DecimalRoundTrip(n / 10);
      assert s[..|s| - 1] == DecimalNat(n / 10);
    }
  }

  /** A number with k digits is written with exactly k characters. */
  lemma {:induction false} DecimalLength(n: nat, k: nat)
    requires k >= 1 && Pow10(k - 1) <= n < Pow10(k)
    ensures |DecimalNat(n)| == k
  {
    if k == 1 {
      assert n < 10;
    } else {
      assert Pow10(k - 1) == 10 * Pow10(k - 2);
      assert n >= 10;
      DecimalLength(n / 10, k - 1);
    }
  }

  // Values.

  /**
   * A field value: a string, an integral number, a boolean, null, an
   * ObjectId, or an embedded object or array the server never looks into
   * (told apart only by `tag`).
   */
  datatype Value = Str(s: string) | Num(n: int) | Bool(b: bool) | Null | Oid(id: ObjectId) | Composite(tag: nat)

  /** A document: field name to value. */
  type Doc = map<string, Value>

  /** JavaScript truthiness: "", 0, false and null are falsy; objects are truthy. */
  predicate Truthy(v: Value)
  {
    match v
    case Str(s) => s != ""
    case Num(n) => n != 0
    case Bool(b) => b
    case Null => false
    case Oid(_) => true
    case Composite(_) => true
  }

  /** `doc.field` tested by `!doc.field`: a missing field is undefined, which is falsy. */
  function FieldTruthy(d: Doc, field: string): (ok: bool)
    ensures ok <==> field in d && d[field] !in {Null, Str(""), Num(0), Bool(false)}
  {
    field in d && Truthy(d[field])
  }

  /**
   * JavaScript's `String(v)`. An embedded object prints as "[object Object]";
   * MongoDB refuses an array as `_id`, the only place the server prints a value.
   */
  function JsString(v: Value): (r: string)
    ensures r == "" <==> v == Str("")
    ensures v.Str? ==> r == v.s
    ensures v.Num? && v.n >= 0 ==> AllDigits(r) && DigitsValue(r) == v.n
    ensures v.Num? && v.n < 0 ==> |r| >= 2 && r[0] == '-' && AllDigits(r[1..]) && DigitsValue(r[1..]) == -v.n
    ensures v.Oid? ==> IsValidObjectId(r) && ParseObjectId(r) == v.id
  {
    match v
    case Str(s) => s
    case Num(n) =>
      DecimalRoundTrip(if n < 0 then -n else n);
      assert n < 0 ==> Decimal(n)[1..] == DecimalNat(-n);
      Decimal(n)
    case Bool(b) => if b then "true" else "false"
    case Null => "null"
    case Oid(id) => ObjectIdRoundTrip(id); ObjectIdString(id)
    case Composite(_) => "[object Object]"
  }

  // MongoDB's comparison order.

  /**
   * Position of a value's type in MongoDB's comparison order: null, numbers,
   * strings, objects and arrays, ObjectId, booleans.
   */
  function TypeRank(v: Value): nat
  {
    match v
    case Null => 1
    case Num(_) => 2
    case Str(_) => 3
    case Composite(_) => 4
    case Oid(_) => 7
    case Bool(_) => 8
  }

  /**
   * Lexicographic order on strings by code point, which is the order of their
   * UTF-8 bytes, MongoDB's default string comparison.
   */
  predicate StrLe(a: string, b: string)
  {
    a == [] || (b != [] && (a[0] < b[0] || (a[0] == b[0] && StrLe(a[1..], b[1..]))))
  }

  lemma {:induction false} StrLeTotal(a: string, b: string)
    ensures StrLe(a, b) || StrLe(b, a)
  {
    if a != [] && b != [] && a[0] == b[0] {
      StrLeTotal(a[1..], b[1..]);
    }
  }

  lemma {:induction false} StrLeTransitive(a: string, b: string, c: string)
    requires StrLe(a, b) && StrLe(b, c)
    ensures StrLe(a, c)
  {
    if a != [] && b != [] && c != [] && a[0] == b[0] == c[0] {
      StrLeTransitive(a[1..], b[1..], c[1..]);
    }
  }

  /**
   * `a` sorts no later than `b` in MongoDB's order. ObjectIds compare by their
   * lower-case hexadecimal text, which orders them as their bytes do; embedded
   * objects and arrays compare by their tag.
   */
  predicate ValueLe(a: Value, b: Value)
  {
    if TypeRank(a) != TypeRank(b) then TypeRank(a) < TypeRank(b)
    else match (a, b)
      case (Num(x), Num(y)) => x <= y
      case (Str(x), Str(y)) => StrLe(x, y)
      case (Bool(x), Bool(y)) => !x || y
      case (Oid(x), Oid(y)) => StrLe(ObjectIdString(x), ObjectIdString(y))
      case (Composite(x), Composite(y)) => x <= y
      case _ => true
  }

  lemma ValueLeTotal(a: Value, b: Value)
    ensures ValueLe(a, b) || ValueLe(b, a)
  {
    match (a, b)
    case (Str(x), Str(y)) => StrLeTotal(x, y);
    case (Oid(x), Oid(y)) => StrLeTotal(ObjectIdString(x), ObjectIdString(y));
    case _ =>
  }

  lemma ValueLeTransitive(a: Value, b: Value, c: Value)
    requires ValueLe(a, b) && ValueLe(b, c)
    ensures ValueLe(a, c)
  {
    if TypeRank(a) == TypeRank(b) == TypeRank(c) {
      match (a, b, c)
      case (Str(x), Str(y), Str(z)) => StrLeTransitive(x, y, z);
      case (Oid(x), Oid(y), Oid(z)) => StrLeTransitive(ObjectIdString(x), ObjectIdString(y), ObjectIdString(z));
      case _ =>
    }
  }
}
