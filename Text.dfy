/** String helpers shared by the Java and JavaScript models: ASCII case folding,
    Java's equalsIgnoreCase (which also folds U+017F, U+0131, U+0130 and U+212A),
    character removal and the decimal text of an integer. */
module Text {

  /** ASCII lower-casing, as Java's toLowerCase and JS's /i flag do for ASCII letters. */
  function Lower(c: char): (r: char)
    ensures 'A' <= c <= 'Z' ==> r as int == c as int + 32
    ensures !('A' <= c <= 'Z') ==> r == c
  {
    if 'A' <= c <= 'Z' then (c as int + 32) as char else c
  }

  predicate EqualsIgnoreCase(a: string, b: string)
  {
    |a| == |b| && forall i :: 0 <= i < |a| ==> Lower(a[i]) == Lower(b[i])
  }

  /** The character Java's equalsIgnoreCase compares `c` as, when the other side
      is an ASCII letter: besides the ASCII letters, U+017F (long s) upper-cases
      to 'S', U+0131 (dotless i) upper-cases to 'I', and U+0130 (dotted capital I)
      and U+212A (Kelvin sign) lower-case to 'i' and 'k'. */
  function JavaFold(c: char): (r: char)
    ensures c == '\U{17F}' ==> r == 's'
    ensures c == '\U{131}' || c == '\U{130}' ==> r == 'i'
    ensures c == '\U{212A}' ==> r == 'k'
    ensures c != '\U{17F}' && c != '\U{131}' && c != '\U{130}' && c != '\U{212A}' ==> r == Lower(c)
  {
    if c == '\U{17F}' then 's'
    else if c == '\U{131}' || c == '\U{130}' then 'i'
    else if c == '\U{212A}' then 'k'
    else Lower(c)
  }

  /** Java's `s.equalsIgnoreCase(word)` for a word of ASCII letters. */
  predicate EqualsIgnoreCaseJava(s: string, word: string)
  {
    |s| == |word| && forall i :: 0 <= i < |s| ==> JavaFold(s[i]) == Lower(word[i])
  }

  predicate StartsWithIgnoreCase(s: string, prefix: string)
  {
    |prefix| <= |s| && EqualsIgnoreCase(s[..|prefix|], prefix)
  }

  /** `word` occurs in `s` at position `i`, ignoring ASCII case. */
  predicate OccursAt(s: string, word: string, i: int)
  {
    0 <= i && i + |word| <= |s| && EqualsIgnoreCase(s[i..i + |word|], word)
  }

  predicate ContainsIgnoreCase(s: string, word: string)
  {
    exists i :: 0 <= i <= |s| && OccursAt(s, word, i)
  }

  /** `s` with every occurrence of `c` deleted (Java's `s.replaceAll("#", "")` for c = '#'). */
  function RemoveAll(s: string, c: char): (r: string)
    ensures c !in r
    ensures |r| <= |s|
    ensures forall d :: d in r <==> d in s && d != c
    ensures multiset(r) == multiset(s)[c := 0]
    ensures c !in s ==> r == s
  {
    if s == [] then []
    else if s[0] == c then
      assert s == [s[0]] + s[1..];
      RemoveAll(s[1..], c)
    else
      assert s == [s[0]] + s[1..];
      [s[0]] + RemoveAll(s[1..], c)
  }

  /** Removal commutes with concatenation, so the characters that are kept stay in order. */
  lemma {:induction false} RemoveAllAppend(a: string, b: string, c: char)
    ensures RemoveAll(a + b, c) == RemoveAll(a, c) + RemoveAll(b, c)
  {
    if a == [] {
      assert a + b == b;
    } else {
      assert (a + b)[1..] == a[1..] + b;
      RemoveAllAppend(a[1..], b, c);
    }
  }

  function Digit(d: nat): (r: char)
    requires d < 10
    ensures '0' <= r <= '9'
  {
    "0123456789"[d]
  }

  function NaturalText(n: nat): (r: string)
    ensures |r| > 0
    ensures forall i :: 0 <= i < |r| ==> '0' <= r[i] <= '9'
    ensures n < 10 <==> |r| == 1
    decreases n
  {
    if n < 10 then [Digit(n)] else NaturalText(n / 10) + [Digit(n % 10)]
  }

  /** The decimal text Java's String.valueOf gives an integer. */
  function DecimalText(n: int): (r: string)
    ensures |r| > 0
    ensures n < 0 <==> r[0] == '-'
  {
    if n < 0 then "-" + NaturalText(-n) else NaturalText(n)
  }
}
