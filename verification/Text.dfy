/** Splitting and joining of text (source/nsvr/nsvr_internal.cpp). */
module Text {

  function Count(s: string, c: char): nat {
    if s == "" then 0 else (if s[0] == c then 1 else 0) + Count(s[1..], c)
  }

  /** The pieces of `s` between separators: always at least one, none holding the separator. */
  function Split(s: string, sep: char): (pieces: seq<string>)
    ensures |pieces| == Count(s, sep) + 1
    ensures forall k :: 0 <= k < |pieces| ==> sep !in pieces[k]
  {
    if s == "" then [""]
    else
      var rest := Split(s[1..], sep);
      if s[0] == sep then [""] + rest
      else [[s[0]] + rest[0]] + rest[1..]
  }

  /** A C string ends at the first NUL. */
  function CString(s: string): string {
    if s == "" || s[0] == '\0' then "" else [s[0]] + CString(s[1..])
  }

  /** The glue is handed over as a C string. */
  function Implode(elements: seq<string>, glue: string): string {
    if |elements| == 0 then ""
    else if |elements| == 1 then elements[0]
    else elements[0] + CString(glue) + Implode(elements[1..], glue)
  }

  lemma {:induction false} SplitNoSeparator(s: string, sep: char)
    requires sep !in s
    ensures Split(s, sep) == [s]
  {
    if s != "" {
      SplitNoSeparator(s[1..], sep);
      assert [s[0]] + s[1..] == s;
    }
  }

  /** The first piece ends at the first separator. */
  lemma {:induction false} SplitAtSeparator(piece: string, sep: char, rest: string)
    requires sep !in piece
    ensures Split(piece + [sep] + rest, sep) == [piece] + Split(rest, sep)
  {
    var s := piece + [sep] + rest;
    if piece == "" {
      assert s[1..] == rest;
    } else {
      assert s[1..] == piece[1..] + [sep] + rest;
      SplitAtSeparator(piece[1..], sep, rest);
      assert [s[0]] + piece[1..] == piece;
    }
  }

  /** Joining the pieces back gives the text they came from, unless the separator is NUL,
      which joins with nothing. */
  lemma ImplodeInvertsExplode(s: string, sep: char)
    ensures Implode(Split(s, sep), [sep]) == s <==> sep != '\0' || sep !in s
  {
    if sep == '\0' {
      NulJoinsWithNothing(s);
    } else {
      GlueInvertsExplode(s, sep);
    }
  }

  lemma {:induction false} GlueInvertsExplode(s: string, sep: char)
    requires sep != '\0'
    ensures Implode(Split(s, sep), [sep]) == s
  {
    if s != "" {
      GlueInvertsExplode(s[1..], sep);
      var rest := Split(s[1..], sep);
      assert CString([sep]) == [sep];
      if s[0] == sep {
        assert ([""] + rest)[1..] == rest;
      } else if |rest| > 1 {
        assert ([[s[0]] + rest[0]] + rest[1..])[1..] == rest[1..];
      }
    }
  }

  /** Joined with nothing, a text loses its separators. */
  lemma {:induction false} NulJoinsWithNothing(s: string)
    ensures |Implode(Split(s, '\0'), "\0")| == |s| - Count(s, '\0')
    ensures '\0' !in s <==> Count(s, '\0') == 0
    ensures '\0' !in s ==> Implode(Split(s, '\0'), "\0") == s
  {
    if s != "" {
      NulJoinsWithNothing(s[1..]);
      var rest := Split(s[1..], '\0');
      if s[0] == '\0' {
        assert ([""] + rest)[1..] == rest;
      } else if |rest| > 1 {
        assert ([[s[0]] + rest[0]] + rest[1..])[1..] == rest[1..];
      }
      if '\0' !in s {
        SplitNoSeparator(s, '\0');
      }
    }
  }

  /** Splitting a joined list gives the list back, when no element holds the separator,
      unless that is NUL and there is something to join. */
  lemma ExplodeInvertsImplode(elements: seq<string>, sep: char)
    requires |elements| > 0
    requires forall k :: 0 <= k < |elements| ==> sep !in elements[k]
    ensures Split(Implode(elements, [sep]), sep) == elements <==> sep != '\0' || |elements| == 1
  {
    if sep == '\0' {
      NoNulJoined(elements);
      SplitNoSeparator(Implode(elements, [sep]), sep);
    } else {
      ExplodeInvertsGlue(elements, sep);
    }
  }

  lemma {:induction false} ExplodeInvertsGlue(elements: seq<string>, sep: char)
    requires |elements| > 0 && sep != '\0'
    requires forall k :: 0 <= k < |elements| ==> sep !in elements[k]
    ensures Split(Implode(elements, [sep]), sep) == elements
  {
    if |elements| == 1 {
      SplitNoSeparator(elements[0], sep);
    } else {
      ExplodeInvertsGlue(elements[1..], sep);
      assert CString([sep]) == [sep];
      SplitAtSeparator(elements[0], sep, Implode(elements[1..], [sep]));
    }
  }

  lemma {:induction false} NoNulJoined(elements: seq<string>)
    requires forall k :: 0 <= k < |elements| ==> '\0' !in elements[k]
    ensures '\0' !in Implode(elements, "\0")
  {
    if |elements| > 1 {
      NoNulJoined(elements[1..]);
    }
  }

  ghost predicate SplitSoFar(input: string, sep: char, pieces: seq<string>, beg: nat) {
    beg <= |input| && Split(input, sep) == pieces + Split(input[beg..], sep)
  }

  lemma SplitStep(input: string, sep: char, pieces: seq<string>, beg: nat, cur: nat)
    requires beg <= cur < |input| && input[cur] == sep
    requires sep !in input[beg..cur]
    requires SplitSoFar(input, sep, pieces, beg)
    ensures SplitSoFar(input, sep, pieces + [input[beg..cur]], cur + 1)
  {
    var piece, rest := input[beg..cur], input[cur + 1..];
    assert input[beg..] == piece + [sep] + rest;
    SplitAtSeparator(piece, sep, rest);
    assert pieces + ([piece] + Split(rest, sep)) == (pieces + [piece]) + Split(rest, sep);
  }

  lemma SplitEnd(input: string, sep: char, pieces: seq<string>, beg: nat)
    requires SplitSoFar(input, sep, pieces, beg)
    requires sep !in input[beg..]
    ensures Split(input, sep) == pieces + [input[beg..]]
  {
    SplitNoSeparator(input[beg..], sep);
  }

  /** The splitting loop, with its two cursors. */
  method Explode(input: string, separator: char) returns (pieces: seq<string>)
    ensures pieces == Split(input, separator)
  {
    pieces := [];
    var cur, beg := 0, 0;
    assert input[0..] == input;
    while cur < |input|
      invariant 0 <= beg <= cur <= |input|
      invariant separator !in input[beg..cur]
      invariant SplitSoFar(input, separator, pieces, beg)
    {
      if input[cur] == separator {
        SplitStep(input, separator, pieces, beg, cur);
        pieces := pieces + [input[beg..cur]];
        cur := cur + 1;
        beg := cur;
      } else {
        assert input[beg..cur + 1] == input[beg..cur] + [input[cur]];
        cur := cur + 1;
      }
    }
    assert input[beg..cur] == input[beg..];
    SplitEnd(input, separator, pieces, beg);
    pieces := pieces + [input[beg..cur]];
  }
}
