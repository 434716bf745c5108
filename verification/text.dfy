/** The string operations the report uses to recognise accounts and rows by name. */
module Text {

  /** ASCII lower-casing of one character. */
  function LowerChar(c: char): char {
    if 'A' <= c <= 'Z' then (c as int + 32) as char else c
  }

  /** ASCII upper-casing of one character. */
  function UpperChar(c: char): char {
    if 'a' <= c <= 'z' then (c as int - 32) as char else c
  }

  /** `s.lower()`, restricted to ASCII letters. */
  function Lower(s: string): (r: string)
    ensures |r| == |s|
    ensures forall i :: 0 <= i < |s| ==> r[i] == LowerChar(s[i])
  {
    if s == [] then [] else [LowerChar(s[0])] + Lower(s[1..])
  }

  /** `s.upper()`, restricted to ASCII letters. */
  function Upper(s: string): (r: string)
    ensures |r| == |s|
    ensures forall i :: 0 <= i < |s| ==> r[i] == UpperChar(s[i])
  {
    if s == [] then [] else [UpperChar(s[0])] + Upper(s[1..])
  }

  /** `needle` sits in `hay` starting at position `i`. */
  ghost predicate OccursAt(needle: string, hay: string, i: int) {
    0 <= i && i + |needle| <= |hay| && hay[i..i + |needle|] == needle
  }

  /** `needle` is a substring of `hay`. */
  ghost predicate Occurs(needle: string, hay: string) {
    exists i :: OccursAt(needle, hay, i)
  }

  /** Python's `needle in hay` on strings. */
  function Contains(needle: string, hay: string): (b: bool)
    ensures b <==> Occurs(needle, hay)
    decreases |hay|
  {
    if |needle| > |hay| then
      assert forall i :: !OccursAt(needle, hay, i);
      false
    else if needle <= hay then
      assert OccursAt(needle, hay, 0);
      true
    else
      var rest := Contains(needle, hay[1..]);
      ShiftOccurrence(needle, hay);
      rest
  }

  /** An occurrence in `hay` past position 0 is an occurrence in `hay[1..]`, and back. */
  lemma ShiftOccurrence(needle: string, hay: string)
    requires |needle| <= |hay| && !(needle <= hay)
    ensures Occurs(needle, hay) <==> Occurs(needle, hay[1..])
  {
    if Occurs(needle, hay) {
      var i :| OccursAt(needle, hay, i);
      assert i != 0;
      assert hay[1..][i - 1..i - 1 + |needle|] == hay[i..i + |needle|];
      assert OccursAt(needle, hay[1..], i - 1);
    }
    if Occurs(needle, hay[1..]) {
      var j :| OccursAt(needle, hay[1..], j);
      assert hay[j + 1..j + 1 + |needle|] == hay[1..][j..j + |needle|];
      assert OccursAt(needle, hay, j + 1);
    }
  }

  /** `needle.lower() in hay.lower()`: the case-insensitive match on account names. */
  function ContainsIgnoringCase(needle: string, hay: string): (b: bool)
    ensures b <==> Occurs(Lower(needle), Lower(hay))
  {
    Contains(Lower(needle), Lower(hay))
  }

  /**
   `s.replace("'", "")`: the report wraps some section names in single quotes.
   Every other character keeps its count here; `StripQuotesUnquoted` and
   `StripQuotesAppend` together pin down that they also keep their order.
   */
  function StripQuotes(s: string): (r: string)
    ensures '\'' !in r
    ensures |r| <= |s|
    ensures forall c :: c in r <==> c in s && c != '\''
    ensures forall c :: c != '\'' ==> multiset(r)[c] == multiset(s)[c]
  {
    if s == [] then []
    else
      assert s == [s[0]] + s[1..];
      if s[0] == '\'' then StripQuotes(s[1..])
      else [s[0]] + StripQuotes(s[1..])
  }

  /** A string with no quotes is left alone by `StripQuotes`. */
  lemma {:induction false} StripQuotesUnquoted(s: string)
    requires '\'' !in s
    ensures StripQuotes(s) == s
  {
    if s != [] {
      StripQuotesUnquoted(s[1..]);
    }
  }

  /** Removing quotes distributes over concatenation. */
  lemma {:induction false} StripQuotesAppend(a: string, b: string)
    ensures StripQuotes(a + b) == StripQuotes(a) + StripQuotes(b)
  {
    if a == [] {
      assert a + b == b;
    } else {
      assert (a + b)[1..] == a[1..] + b;
      StripQuotesAppend(a[1..], b);
    }
  }

  /** The quoted section name `'x'` of a total row is recognised as `x` again. */
  lemma QuotedName(x: string)
    requires '\'' !in x
    ensures StripQuotes("'" + x + "'") == x
  {
    StripQuotesAppend("'" + x, "'");
    StripQuotesAppend("'", x);
    StripQuotesUnquoted(x);
  }
}
