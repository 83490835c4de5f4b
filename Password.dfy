/**
 * The password-strength check of server/index.js (`validatePassword`).
 *
 * The validator tests five rules in a fixed order and reports the first that
 * fails, or nothing when all pass. The character classes are the ASCII ranges
 * of the regular expressions `[A-Z]`, `[a-z]`, `[0-9]` and `[^A-Za-z0-9]`, so
 * a non-ASCII letter counts as a special character.
 */
module Password {
  import opened Wrappers

  /** The rules, in the order the validator checks them; each stands for its error message. */
  datatype Rule = MinLength | Uppercase | Lowercase | Digit | Special

  const MIN_LENGTH := 6

  /** Position of a rule in the checking order. */
  function Rank(rule: Rule): nat
  {
    match rule
    case MinLength => 0
    case Uppercase => 1
    case Lowercase => 2
    case Digit => 3
    case Special => 4
  }

  predicate IsUpper(c: char) { 'A' <= c <= 'Z' }
  predicate IsLower(c: char) { 'a' <= c <= 'z' }
  predicate IsDigit(c: char) { '0' <= c <= '9' }

  /** A character outside `[A-Za-z0-9]`. */
  predicate IsSpecial(c: char) { !IsUpper(c) && !IsLower(c) && !IsDigit(c) }

  /** The four character classes the validator's regular expressions look for. */
  datatype CharClass = UpperClass | LowerClass | DigitClass | SpecialClass

  predicate InClass(c: char, k: CharClass)
  {
    match k
    case UpperClass => IsUpper(c)
    case LowerClass => IsLower(c)
    case DigitClass => IsDigit(c)
    case SpecialClass => IsSpecial(c)
  }

  /**
   * JavaScript's `password.length`: the number of UTF-16 code units, so a
   * character outside the Basic Multilingual Plane counts twice.
   */
  function Utf16Length(p: string): (n: nat)
    ensures |p| <= n <= 2 * |p|
    ensures n == |p| <==> forall i :: 0 <= i < |p| ==> p[i] as int < 0x1_0000
  {
    if p == [] then 0
    else (if p[0] as int >= 0x1_0000 then 2 else 1) + Utf16Length(p[1..])
  }

  /** One character is one code unit below U+10000 and a surrogate pair from there on. */
  lemma Utf16LengthChar(c: char)
    ensures Utf16Length([c]) == if c as int >= 0x1_0000 then 2 else 1
  {
    assert [c][1..] == [];
  }

  /** The code units of a concatenation are those of its parts. */
  lemma {:induction false} Utf16LengthAppend(a: string, b: string)
    ensures Utf16Length(a + b) == Utf16Length(a) + Utf16Length(b)
  {
    if a == [] {
      assert a + b == b;
    } else {
      assert (a + b)[0] == a[0];
      assert (a + b)[1..] == a[1..] + b;
      Utf16LengthAppend(a[1..], b);
    }
  }

  /** `/[..]/.test(p)`: a left-to-right scan for a character of class `k`. */
  function Test(p: string, k: CharClass): (found: bool)
    ensures found <==> Contains(p, k)
  {
    if p == [] then false
    else InClass(p[0], k) || Test(p[1..], k)
  }

  /** Some character of `p` lies in class `k`. */
  ghost predicate Contains(p: string, k: CharClass)
  {
    exists i :: 0 <= i < |p| && InClass(p[i], k)
  }

  /** What it means for `p` to satisfy a rule, stated independently of the validator. */
  ghost predicate Holds(rule: Rule, p: string)
  {
    match rule
    case MinLength => Utf16Length(p) >= MIN_LENGTH
    case Uppercase => Contains(p, UpperClass)
    case Lowercase => Contains(p, LowerClass)
    case Digit => Contains(p, DigitClass)
    case Special => Contains(p, SpecialClass)
  }

  /** `rule` fails for `p` and every rule checked before it holds. */
  ghost predicate FirstFailing(rule: Rule, p: string)
  {
    !Holds(rule, p) && forall earlier: Rule :: Rank(earlier) < Rank(rule) ==> Holds(earlier, p)
  }

  /**
   * `validatePassword`: None when the password is acceptable, otherwise the
   * first failing rule in the order length, upper, lower, digit, special.
   */
  function Validate(p: string): (failed: Option<Rule>)
    ensures failed == None <==> forall rule: Rule :: Holds(rule, p)
    ensures forall rule: Rule :: failed == Some(rule) <==> FirstFailing(rule, p)
  {
    if Utf16Length(p) < MIN_LENGTH then assert !Holds(MinLength, p); Some(MinLength)
    else if !Test(p, UpperClass) then assert !Holds(Uppercase, p); Some(Uppercase)
    else if !Test(p, LowerClass) then assert !Holds(Lowercase, p); Some(Lowercase)
    else if !Test(p, DigitClass) then assert !Holds(Digit, p); Some(Digit)
    else if !Test(p, SpecialClass) then assert !Holds(Special, p); Some(Special)
    else None
  }

  /** A password shorter than six characters always gets the length message, whatever else it lacks. */
  lemma ShortPasswordGetsLengthRule(p: string)
    requires Utf16Length(p) < MIN_LENGTH
    ensures Validate(p) == Some(MinLength)
  {
  }

  /**
   * Five characters, two of them emoji outside the Basic Multilingual Plane:
   * `length` is 7, so the length rule passes, and the emoji are special characters.
   */
  lemma AstralPasswordAccepted()
    ensures |"Ab1\U{1F600}\U{1F600}"| == 5
    ensures Utf16Length("Ab1\U{1F600}\U{1F600}") == 7
    ensures Validate("Ab1\U{1F600}\U{1F600}") == None
  {
    var p := "Ab1\U{1F600}\U{1F600}";
    assert IsUpper(p[0]) && IsLower(p[1]) && IsDigit(p[2]) && IsSpecial(p[3]);
  }

  /** The accepted password of the account example: "Abc123!". */
  lemma ExamplePasswordAccepted()
    ensures Validate("Abc123!") == None
  {
    assert IsUpper("Abc123!"[0]) && IsLower("Abc123!"[1]) && IsDigit("Abc123!"[3]) && IsSpecial("Abc123!"[6]);
  }
}
