/** The string operations the core relies on: ASCII case folding (the part of
    Python's `str.lower` that the history keywords need), substring search
    (Python's `needle in hay`) and `sep.join(parts)`. */
module Text {

  // ---------------------------------------------------------------------------
  // Case folding
  // ---------------------------------------------------------------------------

  predicate IsAsciiUpper(c: char) { 'A' <= c <= 'Z' }

  predicate IsAsciiLower(c: char) { 'a' <= c <= 'z' }

  function LowerChar(c: char): (d: char)
    ensures !IsAsciiUpper(d)
    ensures IsAsciiUpper(c) ==> IsAsciiLower(d) && d as int - c as int == 32
    ensures !IsAsciiUpper(c) ==> d == c
  {
    if IsAsciiUpper(c) then (c as int + 32) as char else c
  }

  function UpperChar(c: char): (d: char)
    ensures !IsAsciiLower(d)
    ensures IsAsciiLower(c) ==> IsAsciiUpper(d) && c as int - d as int == 32
    ensures !IsAsciiLower(c) ==> d == c
  {
    if IsAsciiLower(c) then (c as int - 32) as char else c
  }

  /** `s.lower()` restricted to ASCII letters: every character is mapped on
      its own, so the length never changes. */
  function Lower(s: string): (r: string)
    ensures |r| == |s|
    ensures forall i :: 0 <= i < |s| ==> r[i] == LowerChar(s[i])
  {
    seq(|s|, i requires 0 <= i < |s| => LowerChar(s[i]))
  }

  /** `s.upper()` restricted to ASCII letters. */
  function Upper(s: string): (r: string)
    ensures |r| == |s|
    ensures forall i :: 0 <= i < |s| ==> r[i] == UpperChar(s[i])
  {
    seq(|s|, i requires 0 <= i < |s| => UpperChar(s[i]))
  }

  lemma LowerConcat(a: string, b: string)
    ensures Lower(a + b) == Lower(a) + Lower(b)
  {
    assert forall i :: 0 <= i < |a + b| ==> Lower(a + b)[i] == (Lower(a) + Lower(b))[i];
  }

  /** Folding an upper-cased string gives the same as folding the original. */
  lemma LowerOfUpper(s: string)
    ensures Lower(Upper(s)) == Lower(s)
  {
    assert forall i :: 0 <= i < |s| ==> Lower(Upper(s))[i] == Lower(s)[i];
  }

  lemma LowerIdempotent(s: string)
    ensures Lower(Lower(s)) == Lower(s)
  {
    assert forall i :: 0 <= i < |s| ==> Lower(Lower(s))[i] == Lower(s)[i];
  }

  // ---------------------------------------------------------------------------
  // Substring search
  // ---------------------------------------------------------------------------

  /** `needle` occurs in `hay` starting at position `i`. */
  ghost predicate OccursAt(needle: string, hay: string, i: int) {
    0 <= i && i + |needle| <= |hay| && hay[i..i + |needle|] == needle
  }

  /** Plain substring containment, with no regard for word boundaries. */
  ghost predicate IsSubstring(needle: string, hay: string) {
    exists i :: OccursAt(needle, hay, i)
  }

  lemma {:induction false} TailOccurrences(needle: string, hay: string)
    requires |hay| > 0 && !OccursAt(needle, hay, 0)
    ensures IsSubstring(needle, hay[1..]) <==> IsSubstring(needle, hay)
  {
    if IsSubstring(needle, hay[1..]) {
      var i :| OccursAt(needle, hay[1..], i);
      assert hay[i + 1..i + 1 + |needle|] == hay[1..][i..i + |needle|];
      assert OccursAt(needle, hay, i + 1);
    }
    if IsSubstring(needle, hay) {
      var i :| OccursAt(needle, hay, i);
      assert i != 0;
      assert hay[1..][i - 1..i - 1 + |needle|] == hay[i..i + |needle|];
      assert OccursAt(needle, hay[1..], i - 1);
    }
  }

  /** Python's `needle in hay` for strings: a left-to-right scan. */
  function Contains(needle: string, hay: string): (r: bool)
    ensures r <==> IsSubstring(needle, hay)
    decreases |hay|
  {
    if |hay| < |needle| then
      assert forall i :: !OccursAt(needle, hay, i);
      false
    else if hay[..|needle|] == needle then
      assert OccursAt(needle, hay, 0);
      true
    else
      TailOccurrences(needle, hay);
      Contains(needle, hay[1..])
  }

  /** An occurrence survives text added on either side. */
  lemma {:induction false} SubstringOfConcat(needle: string, a: string, b: string, c: string)
    requires IsSubstring(needle, b)
    ensures IsSubstring(needle, a + b + c)
  {
    var i :| OccursAt(needle, b, i);
    var hay := a + b + c;
    assert hay[|a| + i..|a| + i + |needle|] == b[i..i + |needle|];
    assert OccursAt(needle, hay, |a| + i);
  }

  // ---------------------------------------------------------------------------
  // Joining
  // ---------------------------------------------------------------------------

  /** Python's `sep.join(parts)`: the parts in order with `sep` between
      consecutive ones, and the empty string for no parts. */
  function Join(sep: string, parts: seq<string>): (joined: string)
    ensures |parts| == 0 ==> joined == ""
    ensures |parts| > 0 ==> parts[0] <= joined
    decreases |parts|
  {
    if |parts| == 0 then ""
    else if |parts| == 1 then parts[0]
    else parts[0] + sep + Join(sep, parts[1..])
  }

  /** Joining a concatenation is joining each side and putting one separator
      between them: no part is dropped, none is moved. */
  lemma {:induction false} JoinConcat(sep: string, a: seq<string>, b: seq<string>)
    requires |a| > 0 && |b| > 0
    ensures Join(sep, a + b) == Join(sep, a) + sep + Join(sep, b)
    decreases |a|
  {
    if |a| == 1 {
      assert (a + b)[1..] == b;
    } else {
      assert (a + b)[1..] == a[1..] + b;
      JoinConcat(sep, a[1..], b);
    }
  }

  /** Every part appears, as a substring, in the joined text. */
  lemma {:induction false} JoinContainsPart(sep: string, parts: seq<string>, k: nat)
    requires k < |parts|
    ensures IsSubstring(parts[k], Join(sep, parts))
  {
    var before := parts[..k];
    var after := parts[k + 1..];
    assert parts == before + [parts[k]] + after;
    var middle := Join(sep, before + [parts[k]]);
    if k == 0 {
      assert Join(sep, [parts[k]]) == "" + parts[k] + "";
      assert IsSubstring(parts[k], Join(sep, [parts[k]])) by {
        SubstringWhole(parts[k]);
        SubstringOfConcat(parts[k], "", parts[k], "");
      }
    } else {
      JoinConcat(sep, before, [parts[k]]);
      assert middle == Join(sep, before) + sep + parts[k] + "";
      SubstringWhole(parts[k]);
      SubstringOfConcat(parts[k], Join(sep, before) + sep, parts[k], "");
    }
    if |after| == 0 {
      assert parts == before + [parts[k]];
      assert Join(sep, parts) == "" + middle + "";
    } else {
      JoinConcat(sep, before + [parts[k]], after);
      assert Join(sep, parts) == "" + middle + (sep + Join(sep, after));
    }
    SubstringOfConcat(parts[k], "", middle, if |after| == 0 then "" else sep + Join(sep, after));
  }

  lemma SubstringWhole(s: string)
    ensures IsSubstring(s, s)
  {
    assert OccursAt(s, s, 0);
  }
}
