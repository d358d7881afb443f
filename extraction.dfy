/** Cutting the JSON candidate out of the model's reply: from the first '{' to the last '}'. */
module Extraction {
  import opened Wrappers
  import opened Text

  /** The candidate JSON text of a reply: from the first '{' to the last '}', when the last
      '}' comes after the first '{'. The candidate begins with '{' and ends with '}'. */
  function ExtractJson(s: string): (r: Option<string>)
    ensures r.Some? ==> 0 <= Find(s, '{') < RFind(s, '}') && r.value == s[Find(s, '{')..RFind(s, '}') + 1]
    ensures r.Some? ==> |r.value| >= 2 && r.value[0] == '{' && r.value[|r.value| - 1] == '}'
    ensures r.None? ==> Find(s, '{') == -1 || RFind(s, '}') < Find(s, '{')
  {
    var start := Find(s, '{');
    var end := RFind(s, '}') + 1;
    if start >= 0 && end > start then Some(s[start..end]) else None
  }

  /** The extraction given the positions of the first '{' and the last '}'. */
  lemma ExtractJsonBetween(s: string, i: int, j: int)
    requires i == Find(s, '{') && j == RFind(s, '}') && 0 <= i < j + 1
    ensures ExtractJson(s) == Some(s[i..j + 1])
  {
  }

  /** The extraction as the code performs it: the first '{' and one past the last '}'. */
  lemma ExtractJsonSteps(s: string, start: int, end: int)
    requires start == Find(s, '{') && end == RFind(s, '}') + 1
    ensures ExtractJson(s) == if start >= 0 && end > start then Some(s[start..end]) else None
  {
  }

  /** No candidate when there is no '{', or no '}' at or after the first '{'. */
  lemma ExtractJsonNone(s: string)
    requires Find(s, '{') == -1 || RFind(s, '}') < Find(s, '{')
    ensures ExtractJson(s) == None
  {
  }

  /** A candidate is found exactly when some '{' is followed, somewhere later, by a '}'. */
  lemma ExtractJsonFinds(s: string)
    ensures ExtractJson(s).Some? <==> exists i, j :: 0 <= i < j < |s| && s[i] == '{' && s[j] == '}'
  {
    var start, last := Find(s, '{'), RFind(s, '}');
    if ExtractJson(s).Some? {
      assert s[start] == '{' && s[last] == '}';
    }
  }

  /** The extraction fails exactly when the reply has no '{', or no '}' after the first '{'. */
  lemma ExtractJsonFails(s: string)
    ensures ExtractJson(s).None? <==> '{' !in s || '}' !in s[Find(s, '{')..]
  {
    var start := Find(s, '{');
    if start >= 0 && '}' in s[start..] {
      var k :| 0 <= k < |s| - start && s[start..][k] == '}';
      assert s[start + k] == '}';
      ExtractJsonBetween(s, start, RFind(s, '}'));
    }
    if ExtractJson(s).Some? {
      assert s[start] == '{';
      assert s[RFind(s, '}')] == s[start..][RFind(s, '}') - start];
    }
  }

  /** Extracting from an extracted candidate gives the candidate back. */
  lemma ExtractJsonIdempotent(s: string)
    requires ExtractJson(s).Some?
    ensures ExtractJson(ExtractJson(s).value) == ExtractJson(s)
  {
    var c := ExtractJson(s).value;
    assert c[0] == '{' && c[|c| - 1] == '}';
    assert Find(c, '{') == 0 && RFind(c, '}') == |c| - 1;
    ExtractJsonBetween(c, 0, |c| - 1);
    assert c[0..|c|] == c;
  }

  /** `t` sits in `s` at offset `a`, and `c` does not occur in `s` outside it. */
  predicate InfixWithout(s: string, t: string, a: int, c: char)
  {
    0 <= a && a + |t| <= |s| &&
    (forall k :: 0 <= k < |t| ==> t[k] == s[a + k]) &&
    (forall k :: 0 <= k < |s| && (k < a || a + |t| <= k) ==> s[k] != c)
  }

  /** Find on such an infix is Find on the whole text, shifted by the offset. */
  lemma FindOnInfix(s: string, t: string, a: int, c: char)
    requires InfixWithout(s, t, a, c)
    ensures Find(t, c) == if Find(s, c) == -1 then -1 else Find(s, c) - a
    ensures Find(s, c) >= 0 ==> a <= Find(s, c) < a + |t|
  {
    var k, m := Find(s, c), Find(t, c);
    if k >= 0 {
      assert t[k - a] == c;
    }
  }

  /** RFind on such an infix is RFind on the whole text, shifted by the offset. */
  lemma RFindOnInfix(s: string, t: string, a: int, c: char)
    requires InfixWithout(s, t, a, c)
    ensures RFind(t, c) == if RFind(s, c) == -1 then -1 else RFind(s, c) - a
    ensures RFind(s, c) >= 0 ==> a <= RFind(s, c) < a + |t|
  {
    var k, m := RFind(s, c), RFind(t, c);
    if k >= 0 {
      assert t[k - a] == c;
    }
  }

  /** A slice of an infix is the corresponding slice of the whole text. */
  lemma SliceOfInfix(s: string, t: string, a: int, i: int, j: int)
    requires 0 <= a && a + |t| <= |s| && forall k :: 0 <= k < |t| ==> t[k] == s[a + k]
    requires a <= i <= j < a + |t|
    ensures t[i - a..j - a + 1] == s[i..j + 1]
  {
    var x, y := t[i - a..j - a + 1], s[i..j + 1];
    assert forall k :: 0 <= k < |x| ==> x[k] == y[k];
  }

  /** With both braces inside the infix, extracting from the infix cuts the same candidate. */
  lemma ExtractJsonOnInfixFound(s: string, t: string, a: int, i: int, j: int)
    requires i == Find(s, '{') && j == RFind(s, '}') && 0 <= a <= i <= j < a + |t| <= |s|
    requires Find(t, '{') == i - a && RFind(t, '}') == j - a
    requires t[i - a..j - a + 1] == s[i..j + 1]
    ensures ExtractJson(t) == ExtractJson(s)
  {
    ExtractJsonBetween(s, i, j);
    ExtractJsonBetween(t, i - a, j - a);
  }

  /** Extraction from an infix that holds every brace of the whole text equals extraction
      from the whole text. */
  lemma ExtractJsonOnInfix(s: string, t: string, a: int)
    requires InfixWithout(s, t, a, '{') && InfixWithout(s, t, a, '}')
    ensures ExtractJson(t) == ExtractJson(s)
  {
    FindOnInfix(s, t, a, '{');
    RFindOnInfix(s, t, a, '}');
    var i, j := Find(s, '{'), RFind(s, '}');
    if i >= 0 && j + 1 > i {
      SliceOfInfix(s, t, a, i, j);
      ExtractJsonOnInfixFound(s, t, a, i, j);
    } else {
      ExtractJsonNone(s);
      ExtractJsonNone(t);
    }
  }

  /** Whitespace around an infix holds no brace. */
  lemma StrippedHoldsEveryBrace(s: string, t: string, a: int)
    requires StrippedAt(s, t, a)
    ensures InfixWithout(s, t, a, '{') && InfixWithout(s, t, a, '}')
  {
    assert forall k :: 0 <= k < |t| ==> t[k] == s[a..a + |t|][k];
  }

  /** Stripping the reply first does not change what is extracted from it: braces are not whitespace. */
  lemma ExtractJsonIgnoresStrip(s: string)
    ensures ExtractJson(Strip(s)) == ExtractJson(s)
  {
    var t := Strip(s);
    StripRemovesOnlySpace(s);
    var a :| StrippedAt(s, t, a);
    StrippedHoldsEveryBrace(s, t, a);
    ExtractJsonOnInfix(s, t, a);
  }
}
