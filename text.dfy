/** The JavaScript string operations the search boxes and labels use:
    `toLowerCase` (on the ASCII letters), `includes` and `replace` of a
    single character. */
module Text {

  function LowerChar(c: char): char {
    if 'A' <= c <= 'Z' then (c as int - 'A' as int + 'a' as int) as char else c
  }

  /** `s.toLowerCase()`, restricted to the ASCII letters. */
  function Lower(s: string): string {
    seq(|s|, i requires 0 <= i < |s| => LowerChar(s[i]))
  }

  /** `hay.includes(needle)`: `needle` occurs in `hay` as a contiguous block. */
  function Includes(hay: string, needle: string): bool
    decreases |hay|
  {
    needle <= hay || (|hay| > 0 && Includes(hay[1..], needle))
  }

  /** `needle` occurs in `hay` starting at position `i`. */
  predicate OccursAt(hay: string, needle: string, i: int) {
    0 <= i && i + |needle| <= |hay| && hay[i..i + |needle|] == needle
  }

  /** An occurrence in the tail is an occurrence one place further on in the whole. */
  lemma OccursInTail(hay: string, needle: string, i: nat)
    requires |hay| > 0
    ensures OccursAt(hay[1..], needle, i) <==> OccursAt(hay, needle, i + 1)
  {
    if 0 <= i && i + |needle| <= |hay| - 1 {
      assert hay[1..][i..i + |needle|] == hay[i + 1..i + 1 + |needle|];
    }
  }

  /** `Includes` agrees with its positional definition, in both directions. */
  lemma {:induction false} IncludesAt(hay: string, needle: string)
    ensures Includes(hay, needle) <==> exists i :: OccursAt(hay, needle, i)
  {
    if needle <= hay {
      assert OccursAt(hay, needle, 0);
    } else if |hay| > 0 {
      IncludesAt(hay[1..], needle);
      if Includes(hay[1..], needle) {
        var i :| OccursAt(hay[1..], needle, i);
        OccursInTail(hay, needle, i);
      }
      if exists i :: OccursAt(hay, needle, i) {
        var i :| OccursAt(hay, needle, i);
        assert i > 0;
        OccursInTail(hay, needle, i - 1);
      }
    } else {
      assert |needle| > 0;
    }
  }

  /** `field.toLowerCase().includes(term.toLowerCase())`. */
  function MatchesIgnoringCase(field: string, term: string): bool {
    Includes(Lower(field), Lower(term))
  }

  /** An empty search term matches every field. */
  lemma EmptyTermMatches(field: string)
    ensures MatchesIgnoringCase(field, "")
  {
  }

  /** Upper- and lower-case letters of the field are not told apart. */
  lemma {:induction false} MatchesIgnoresFieldCase(field: string, term: string)
    ensures MatchesIgnoringCase(Lower(field), term) == MatchesIgnoringCase(field, term)
  {
    assert Lower(Lower(field)) == Lower(field);
  }

  /** Nor are upper- and lower-case letters of the search term. */
  lemma {:induction false} MatchesIgnoresTermCase(field: string, term: string)
    ensures MatchesIgnoringCase(field, Lower(term)) == MatchesIgnoringCase(field, term)
  {
    assert Lower(Lower(term)) == Lower(term);
  }

  /** `s.replace(from, to)` with a one-character pattern: only the FIRST
      occurrence of `from` is replaced. */
  function ReplaceFirst(s: string, from: char, to: char): string {
    if |s| == 0 then []
    else if s[0] == from then [to] + s[1..]
    else [s[0]] + ReplaceFirst(s[1..], from, to)
  }

  /** `s.indexOf(c)`: the first position holding `c`, or -1. */
  function IndexOf(s: string, c: char): (k: int)
    ensures k == -1 <==> c !in s
    ensures k != -1 ==> 0 <= k < |s| && s[k] == c && c !in s[..k]
  {
    if |s| == 0 then -1
    else if s[0] == c then 0
    else
      var k := IndexOf(s[1..], c);
      assert s == [s[0]] + s[1..];
      if k == -1 then -1
      else
        assert s[..k + 1] == [s[0]] + s[1..][..k];
        k + 1
  }

  /** `ReplaceFirst` keeps the length, leaves `s` as it is when `from` does not
      occur, and otherwise changes exactly the first position holding `from`. */
  lemma {:induction false} ReplaceFirstSpec(s: string, from: char, to: char)
    ensures |ReplaceFirst(s, from, to)| == |s|
    ensures IndexOf(s, from) == -1 ==> ReplaceFirst(s, from, to) == s
    ensures IndexOf(s, from) != -1 ==>
      var k := IndexOf(s, from); ReplaceFirst(s, from, to) == s[..k] + [to] + s[k + 1..]
  {
    if |s| > 0 && s[0] != from {
      var t := s[1..];
      ReplaceFirstSpec(t, from, to);
      assert ReplaceFirst(s, from, to) == [s[0]] + ReplaceFirst(t, from, to);
      var k := IndexOf(t, from);
      if k != -1 {
        assert IndexOf(s, from) == k + 1;
        ShiftReplaced(s, k, to);
      } else {
        assert s == [s[0]] + t;
      }
    }
  }

  lemma ShiftReplaced(s: string, k: nat, to: char)
    requires k + 1 < |s|
    ensures [s[0]] + (s[1..][..k] + [to] + s[1..][k + 1..]) == s[..k + 1] + [to] + s[k + 2..]
  {
    assert s[..k + 1] == [s[0]] + s[1..][..k];
    assert s[k + 2..] == s[1..][k + 1..];
  }

  /** When `from` first occurs right after `head`, the replacement happens there. */
  lemma {:induction false} ReplaceFirstAfter(head: string, from: char, to: char, tail: string)
    requires from !in head
    ensures ReplaceFirst(head + [from] + tail, from, to) == head + [to] + tail
  {
    if |head| > 0 {
      ReplaceFirstAfter(head[1..], from, to, tail);
      assert (head + [from] + tail)[1..] == head[1..] + [from] + tail;
      assert head + [to] + tail == [head[0]] + (head[1..] + [to] + tail);
    }
  }
}
