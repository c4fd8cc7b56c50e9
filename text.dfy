/** The string operations the pages use: `toLowerCase`, `toUpperCase`,
    `includes`, and decimal rendering of a number inside a template string.
    Case mapping is ASCII only: characters outside 'A'..'Z' and 'a'..'z'
    have no case here. */
module Text {

  function LowerChar(c: char): char
  {
    if 'A' <= c <= 'Z' then (c as int + 32) as char else c
  }

  function UpperChar(c: char): char
  {
    if 'a' <= c <= 'z' then (c as int - 32) as char else c
  }

  /** `s.toLowerCase()`: the same length, each character lower-cased. */
  function ToLower(s: string): (r: string)
    ensures |r| == |s|
    ensures forall i :: 0 <= i < |s| ==> r[i] == LowerChar(s[i])
  {
    if s == [] then [] else [LowerChar(s[0])] + ToLower(s[1..])
  }

  /** `q` occurs in `s` starting at index `i`. */
  predicate OccursAt(s: string, q: string, i: int)
  {
    0 <= i && i + |q| <= |s| && s[i..i + |q|] == q
  }

  /** `s.includes(q)`: `q` occurs somewhere in `s`. */
  predicate Includes(s: string, q: string)
  {
    exists i :: 0 <= i <= |s| - |q| && OccursAt(s, q, i)
  }

  /** `s.toLowerCase().includes(q.toLowerCase())`, the search test of every page. */
  predicate ContainsIgnoringCase(s: string, q: string)
  {
    Includes(ToLower(s), ToLower(q))
  }

  /** The empty string occurs in every string, so an empty search matches everything. */
  lemma EmptyQueryMatches(s: string)
    ensures ContainsIgnoringCase(s, "")
  {
    assert OccursAt(ToLower(s), ToLower(""), 0);
  }

  /** Lower-casing twice is lower-casing once. */
  lemma ToLowerIdempotent(s: string)
    ensures ToLower(ToLower(s)) == ToLower(s)
  {
    var once := ToLower(s);
    var twice := ToLower(once);
    forall i | 0 <= i < |s| ensures twice[i] == once[i] {
      assert twice[i] == LowerChar(once[i]);
    }
  }

  /** A string with no upper-case letter is its own lower-case form. */
  lemma ToLowerOfLowerCase(s: string)
    requires forall i :: 0 <= i < |s| ==> !('A' <= s[i] <= 'Z')
    ensures ToLower(s) == s
  {
  }

  /** The search is insensitive to the case of the query as well as of the text. */
  lemma QueryCaseIrrelevant(s: string, q: string)
    ensures ContainsIgnoringCase(s, ToLower(q)) == ContainsIgnoringCase(s, q)
  {
    ToLowerIdempotent(q);
  }

  /** The decimal digits of `n`, as `${n}` renders a non-negative integer. */
  function DecimalString(n: nat): (r: string)
    ensures |r| >= 1
    ensures forall i :: 0 <= i < |r| ==> '0' <= r[i] <= '9'
    ensures n < 10 ==> r == [('0' as int + n) as char]
  {
    if n < 10 then [('0' as int + n) as char]
    else DecimalString(n / 10) + DecimalString(n % 10)
  }
}
