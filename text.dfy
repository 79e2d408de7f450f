/**
 * Joining and splitting strings on a one-character separator, as Python's
 * `sep.join(xs)` and `s.split(sep)` do. Splitting is the partner of joining:
 * it recovers the joined parts whenever none of them holds the separator.
 */
module Text {

  /** `sep.join(xs)` for a one-character separator. */
  function Join(sep: char, xs: seq<string>): string
  {
    if xs == [] then ""
    else if |xs| == 1 then xs[0]
    else xs[0] + [sep] + Join(sep, xs[1..])
  }

  /** `s.split(sep)`: the maximal separator-free pieces of `s`, empty pieces included. */
  function Split(sep: char, s: string): (r: seq<string>)
    ensures |r| >= 1
  {
    if s == [] then [""]
    else
      var rest := Split(sep, s[1..]);
      if s[0] == sep then [""] + rest
      else [[s[0]] + rest[0]] + rest[1..]
  }

  /** Substring test, Python's `needle in s` on strings. */
  predicate Contains(s: string, needle: string)
  {
    |needle| <= |s| && (s[..|needle|] == needle || Contains(s[1..], needle))
  }

  /** `Contains` holds wherever the needle occurs. */
  lemma {:induction false} ContainsAt(s: string, needle: string, i: nat)
    requires i + |needle| <= |s| && s[i..i + |needle|] == needle
    ensures Contains(s, needle)
  {
    if i > 0 {
      assert s[1..][i - 1..i - 1 + |needle|] == s[i..i + |needle|];
      ContainsAt(s[1..], needle, i - 1);
    }
  }

  /** Conversely, when `Contains` holds the needle occurs at the returned index. */
  lemma {:induction false} ContainsOnly(s: string, needle: string) returns (i: nat)
    requires Contains(s, needle)
    ensures i + |needle| <= |s| && s[i..i + |needle|] == needle
  {
    if s[..|needle|] == needle {
      i := 0;
    } else {
      var j := ContainsOnly(s[1..], needle);
      assert s[1..][j..j + |needle|] == s[j + 1..j + 1 + |needle|];
      i := j + 1;
    }
  }

  /** A piece without the separator splits into itself. */
  lemma {:induction false} SplitFree(sep: char, x: string)
    requires sep !in x
    ensures Split(sep, x) == [x]
  {
    if x != [] {
      SplitFree(sep, x[1..]);
      assert [x[0]] + x[1..] == x;
    }
  }

  /** Splitting `x + sep + y` cuts exactly after the separator-free piece `x`. */
  lemma {:induction false} SplitAfter(sep: char, x: string, y: string)
    requires sep !in x
    ensures Split(sep, x + [sep] + y) == [x] + Split(sep, y)
  {
    if x == [] {
      assert x + [sep] + y == [sep] + y;
      assert ([sep] + y)[1..] == y;
    } else {
      var s := x + [sep] + y;
      assert s[0] == x[0] && s[1..] == x[1..] + [sep] + y;
      SplitAfter(sep, x[1..], y);
      assert [x[0]] + x[1..] == x;
    }
  }

  /** Round trip: splitting a join gives back the parts when no part holds the separator. */
  lemma {:induction false} SplitJoin(sep: char, xs: seq<string>)
    requires xs != []
    requires forall i :: 0 <= i < |xs| ==> sep !in xs[i]
    ensures Split(sep, Join(sep, xs)) == xs
  {
    if |xs| == 1 {
      SplitFree(sep, xs[0]);
    } else {
      SplitJoin(sep, xs[1..]);
      SplitAfter(sep, xs[0], Join(sep, xs[1..]));
    }
  }

  /** Consequently no piece of a join of non-empty, separator-free parts is empty. */
  lemma JoinHasNoEmptyPiece(sep: char, xs: seq<string>)
    requires xs != []
    requires forall i :: 0 <= i < |xs| ==> sep !in xs[i] && xs[i] != ""
    ensures forall p :: p in Split(sep, Join(sep, xs)) ==> p != ""
  {
    SplitJoin(sep, xs);
  }
}
