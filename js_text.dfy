/**
 * The few JavaScript string operations the front end relies on, with their
 * JavaScript meaning: `\s` and `trim()` whitespace, `includes`, lower-casing,
 * and the decimal text of a non-negative integer (what template literals
 * produce for `status`, `height` and the clock fields).
 */
module JsText {
  import opened Wrappers

  /** The characters matched by `\s` in a regular expression, which are also
      exactly the characters `String.prototype.trim` removes. */
  predicate IsSpace(c: char) {
    c == ' ' || c == '\t' || c == '\n' || c == '\U{000B}' || c == '\U{000C}' || c == '\r'
    || c == '\U{00A0}' || c == '\U{1680}' || ('\U{2000}' <= c <= '\U{200A}')
    || c == '\U{2028}' || c == '\U{2029}' || c == '\U{202F}' || c == '\U{205F}'
    || c == '\U{3000}' || c == '\U{FEFF}'
  }

  predicate NoSpace(s: string) {
    forall k :: 0 <= k < |s| ==> !IsSpace(s[k])
  }

  // ---------------------------------------------------------------- includes

  /** `sub` occurs in `s` starting at position `i` */
  predicate OccursAt(s: string, sub: string, i: int) {
    0 <= i <= |s| - |sub| && s[i..i + |sub|] == sub
  }

  /** `s.includes(sub)`: `sub` occurs in `s` at some position */
  predicate Contains(s: string, sub: string) {
    exists i | 0 <= i <= |s| - |sub| :: OccursAt(s, sub, i)
  }

  /** A text that lacks the first character of `sub` does not include `sub` */
  lemma NotContainsWithoutFirst(s: string, sub: string)
    requires |sub| > 0
    requires forall k :: 0 <= k < |s| ==> s[k] != sub[0]
    ensures !Contains(s, sub)
  {
    forall i | 0 <= i <= |s| - |sub|
      ensures !OccursAt(s, sub, i)
    {
      assert s[i..i + |sub|][0] == s[i];
    }
  }

  /** A text that has `sub` at position `i` includes it */
  lemma ContainsWitness(s: string, sub: string, i: nat)
    requires i + |sub| <= |s| && s[i..i + |sub|] == sub
    ensures Contains(s, sub)
  {
    assert OccursAt(s, sub, i);
  }

  /** Lower-casing both texts keeps every occurrence, and the empty text
      occurs in every text */
  lemma ContainsLower(s: string, sub: string)
    ensures Contains(s, sub) || sub == "" ==> Contains(ToLower(s), ToLower(sub))
  {
    if sub == "" {
      assert ToLower(s)[0..0] == ToLower(sub);
      ContainsWitness(ToLower(s), ToLower(sub), 0);
    } else if Contains(s, sub) {
      var i :| 0 <= i <= |s| - |sub| && OccursAt(s, sub, i);
      forall k | 0 <= k < |sub| ensures ToLower(s)[i..i + |sub|][k] == ToLower(sub)[k] {
        assert s[i..i + |sub|][k] == sub[k];
      }
      assert ToLower(s)[i..i + |sub|] == ToLower(sub);
      ContainsWitness(ToLower(s), ToLower(sub), i);
    }
  }

  /** `s.indexOf(c)`: the first position of `c`, or None for JavaScript's -1 */
  function IndexOf(s: string, c: char): (r: Option<nat>)
    ensures r.Some? ==> r.value < |s| && s[r.value] == c
    ensures r.Some? ==> forall k :: 0 <= k < r.value ==> s[k] != c
    ensures r.None? <==> forall k :: 0 <= k < |s| ==> s[k] != c
  {
    if s == [] then None
    else if s[0] == c then Some(0)
    else match IndexOf(s[1..], c)
      case None => None
      case Some(i) => Some(i + 1)
  }

  /** The first position holding `c` is what `indexOf` reports */
  lemma IndexOfIs(s: string, c: char, i: nat)
    requires i < |s| && s[i] == c
    requires forall k :: 0 <= k < i ==> s[k] != c
    ensures IndexOf(s, c) == Some(i)
  {
    var r := IndexOf(s, c);
    assert r.Some?;
    assert !(r.value < i);
    assert !(r.value > i);
  }

  // ---------------------------------------------------------- lower-casing and trim

  /** `toLowerCase` on one character; only the ASCII letters are mapped */
  function LowerChar(c: char): (r: char)
    ensures 'A' <= c <= 'Z' ==> 'a' <= r <= 'z' && r as int - c as int == 32
    ensures !('A' <= c <= 'Z') ==> r == c
  {
    if 'A' <= c <= 'Z' then (c as int + 32) as char else c
  }

  function ToLower(s: string): (r: string)
    ensures |r| == |s|
    ensures forall k :: 0 <= k < |s| ==> r[k] == LowerChar(s[k])
  {
    seq(|s|, k requires 0 <= k < |s| => LowerChar(s[k]))
  }

  /** `s.trim()`: the text without its leading and trailing whitespace */
  function Trim(s: string): string {
    TrimEnd(TrimStart(s))
  }

  function TrimStart(s: string): (r: string)
    ensures |r| <= |s| && r == s[|s| - |r|..]
    ensures forall k :: 0 <= k < |s| - |r| ==> IsSpace(s[k])
    ensures r == [] || !IsSpace(r[0])
  {
    if |s| > 0 && IsSpace(s[0]) then TrimStart(s[1..]) else s
  }

  function TrimEnd(s: string): (r: string)
    ensures |r| <= |s| && r == s[..|r|]
    ensures forall k :: |r| <= k < |s| ==> IsSpace(s[k])
    ensures r == [] || !IsSpace(r[|r| - 1])
  {
    if |s| > 0 && IsSpace(s[|s| - 1]) then TrimEnd(s[..|s| - 1]) else s
  }

  /** A text trims to nothing exactly when all of its characters are whitespace */
  lemma TrimBlankIff(s: string)
    ensures Trim(s) == "" <==> forall k :: 0 <= k < |s| ==> IsSpace(s[k])
  {
    var t := TrimStart(s);
    if forall k :: 0 <= k < |s| ==> IsSpace(s[k]) {
      AllSpaceSuffix(s, |s| - |t|);
    } else {
      var k :| 0 <= k < |s| && !IsSpace(s[k]);
      assert k >= |s| - |t|;
      assert t[k - (|s| - |t|)] == s[k];
      assert t != [] && !IsSpace(t[0]);
      assert TrimEnd(t) != [];
    }
  }

  lemma AllSpaceSuffix(s: string, from: nat)
    requires from <= |s|
    requires forall k :: 0 <= k < |s| ==> IsSpace(s[k])
    ensures forall k :: 0 <= k < |s| - from ==> IsSpace(s[from..][k])
  {
  }

  // ---------------------------------------------------------------- decimal text

  function DigitChar(d: nat): (c: char)
    requires d < 10
    ensures '0' <= c <= '9'
  {
    ('0' as int + d) as char
  }

  function DigitValue(c: char): nat
    requires '0' <= c <= '9'
  {
    c as int - '0' as int
  }

  predicate AllDigits(s: string) {
    forall k :: 0 <= k < |s| ==> '0' <= s[k] <= '9'
  }

  /** The decimal text of `n`, as `${n}` renders a non-negative integer */
  function NatToString(n: nat): (s: string)
    ensures |s| > 0 && AllDigits(s)
    ensures n < 10 <==> |s| == 1
  {
    if n < 10 then [DigitChar(n)] else NatToString(n / 10) + [DigitChar(n % 10)]
  }

  /** The value of a text of decimal digits */
  function ParseDigits(s: string): nat
    requires AllDigits(s)
  {
    if s == [] then 0 else 10 * ParseDigits(s[..|s| - 1]) + DigitValue(s[|s| - 1])
  }

  /** Reading back the decimal text of `n` gives `n` */
  lemma {:induction false} ParseNatToString(n: nat)
    ensures ParseDigits(NatToString(n)) == n
  {
    var s := NatToString(n);
    if n >= 10 {
      ParseNatToString(n / 10);
      assert s[..|s| - 1] == NatToString(n / 10);
    }
  }

  /** Distinct numbers have distinct decimal texts */
  lemma NatToStringInjective(m: nat, n: nat)
    ensures NatToString(m) == NatToString(n) <==> m == n
  {
    if NatToString(m) == NatToString(n) {
      ParseNatToString(m);
      ParseNatToString(n);
    }
  }
}
