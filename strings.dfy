/** Strings made of fields joined by a separator character, and the functions
    that read the fields back. Both ARNs (fields joined by ':') and the console
    URL (host labels joined by '.') are built this way; reading a field back is
    how the model states what an identifier is made of. */
module Strings {

  /** The fields joined, left to right, with `sep` between neighbours. */
  function Join(fields: seq<string>, sep: char): string
    decreases |fields|
  {
    if |fields| == 0 then []
    else if |fields| == 1 then fields[0]
    else fields[0] + [sep] + Join(fields[1..], sep)
  }

  /** The text before the first `sep` (all of `s` when there is none). */
  function HeadBefore(s: string, sep: char): string
    decreases |s|
  {
    if |s| == 0 || s[0] == sep then [] else [s[0]] + HeadBefore(s[1..], sep)
  }

  /** The text after the first `sep` (empty when there is none). */
  function AfterFirst(s: string, sep: char): string
    decreases |s|
  {
    if |s| == 0 then []
    else if s[0] == sep then s[1..]
    else AfterFirst(s[1..], sep)
  }

  /** Field number `k` (from 0) of a `sep`-separated string. */
  function Field(s: string, sep: char, k: nat): string
    decreases k
  {
    if k == 0 then HeadBefore(s, sep) else Field(AfterFirst(s, sep), sep, k - 1)
  }

  /** Splitting at the first separator undoes the join of a separator-free head. */
  lemma {:induction false} SplitJoined(a: string, sep: char, rest: string)
    requires sep !in a
    ensures HeadBefore(a + [sep] + rest, sep) == a
    ensures AfterFirst(a + [sep] + rest, sep) == rest
  {
    if a != [] {
      assert (a + [sep] + rest)[1..] == a[1..] + [sep] + rest;
      SplitJoined(a[1..], sep, rest);
    }
  }

  /** A separator-free string is its own head. */
  lemma {:induction false} HeadOfSeparatorFree(a: string, sep: char)
    requires sep !in a
    ensures HeadBefore(a, sep) == a
  {
    if a != [] {
      HeadOfSeparatorFree(a[1..], sep);
    }
  }

  /** Reading field `k` of a join gives back the `k`-th field, provided no
      field up to and including it contains the separator. */
  lemma {:induction false} FieldOfJoin(fields: seq<string>, sep: char, k: nat)
    requires k < |fields|
    requires forall i :: 0 <= i <= k ==> sep !in fields[i]
    ensures Field(Join(fields, sep), sep, k) == fields[k]
  {
    if |fields| == 1 {
      HeadOfSeparatorFree(fields[0], sep);
    } else {
      SplitJoined(fields[0], sep, Join(fields[1..], sep));
      if k == 0 {
      } else {
        FieldOfJoin(fields[1..], sep, k - 1);
      }
    }
  }

  /** Appending text to a join appends it to the last field. */
  lemma {:induction false} JoinAppend(fields: seq<string>, sep: char, tail: string)
    requires |fields| > 0
    ensures Join(fields, sep) + tail == Join(fields[..|fields| - 1] + [fields[|fields| - 1] + tail], sep)
  {
    var n := |fields|;
    var grown := fields[..n - 1] + [fields[n - 1] + tail];
    if n > 1 {
      JoinAppend(fields[1..], sep, tail);
      assert grown[1..] == fields[1..][..n - 2] + [fields[1..][n - 2] + tail];
      assert grown[0] == fields[0];
    }
  }

  /** A common prefix can be cancelled from two equal strings. */
  lemma CancelPrefix(p: string, x: string, y: string)
    requires p + x == p + y
    ensures x == y
  {
    assert x == (p + x)[|p|..];
    assert y == (p + y)[|p|..];
  }

  /** A common suffix can be cancelled from two equal strings. */
  lemma CancelSuffix(x: string, y: string, t: string)
    requires x + t == y + t
    ensures x == y
  {
    assert x == (x + t)[..|x|];
    assert y == (y + t)[..|y|];
  }
}
