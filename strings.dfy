/**
 * The pieces of Go's `strings` package the handlers rely on, for a
 * single-character separator: `strings.Contains(s, ",")` is `',' in s`,
 * and `strings.Split(s, sep)` is `Split` below.
 */
module Strings {

  /** Position of the first `c` in `s`, or `|s|` when there is none. */
  function IndexOf(s: string, c: char): (i: nat)
    ensures i <= |s|
    ensures i < |s| ==> s[i] == c
    ensures c !in s[..i]
    ensures i == |s| <==> c !in s
  {
    if s == [] then 0
    else if s[0] == c then 0
    else
      var j := IndexOf(s[1..], c);
      assert s[..1 + j] == [s[0]] + s[1..][..j];
      1 + j
  }

  /**
   * Go's `strings.Split(s, string(sep))`: the maximal pieces of `s`
   * between occurrences of `sep`; a string without `sep` gives `[s]`.
   */
  function Split(s: string, sep: char): (parts: seq<string>)
    ensures |parts| >= 1
    ensures forall k :: 0 <= k < |parts| ==> sep !in parts[k]
    ensures parts[0] == s[..IndexOf(s, sep)]
    ensures |parts| == 1 <==> sep !in s
    decreases |s|
  {
    var i := IndexOf(s, sep);
    if i == |s| then [s] else [s[..i]] + Split(s[i + 1..], sep)
  }

  /** Go's `strings.Join(parts, string(sep))`. */
  function Join(parts: seq<string>, sep: char): string
  {
    if |parts| == 0 then ""
    else if |parts| == 1 then parts[0]
    else parts[0] + [sep] + Join(parts[1..], sep)
  }

  /** Joining a piece in front of at least one more puts a separator between them. */
  lemma JoinCons(a: string, rest: seq<string>, sep: char)
    requires |rest| >= 1
    ensures Join([a] + rest, sep) == a + [sep] + Join(rest, sep)
  {
    var parts := [a] + rest;
    assert parts[0] == a && parts[1..] == rest;
  }

  /** Joining the pieces of a split gives back the original string. */
  lemma {:induction false} JoinSplit(s: string, sep: char)
    ensures Join(Split(s, sep), sep) == s
    decreases |s|
  {
    var i := IndexOf(s, sep);
    if i < |s| {
      var t := s[i + 1..];
      assert s == s[..i] + [sep] + t;
      SplitCons(s[..i], t, sep);
      JoinSplit(t, sep);
      JoinCons(s[..i], Split(t, sep), sep);
    }
  }

  /** Splitting a join of separator-free pieces gives back the pieces. */
  lemma {:induction false} SplitJoin(parts: seq<string>, sep: char)
    requires |parts| >= 1
    requires forall k :: 0 <= k < |parts| ==> sep !in parts[k]
    ensures Split(Join(parts, sep), sep) == parts
  {
    if |parts| > 1 {
      var s := Join(parts, sep);
      var rest := Join(parts[1..], sep);
      assert s == parts[0] + [sep] + rest;
      IndexAfterPrefix(parts[0], rest, sep);
      assert s[..|parts[0]|] == parts[0];
      assert s[|parts[0]| + 1..] == rest;
      SplitJoin(parts[1..], sep);
    } else {
      assert Join(parts, sep) == parts[0];
    }
  }

  /** The first separator of `a + [sep] + b` is the one after `a` when `a` has none. */
  lemma IndexAfterPrefix(a: string, b: string, sep: char)
    requires sep !in a
    ensures IndexOf(a + [sep] + b, sep) == |a|
  {
    var s := a + [sep] + b;
    assert s[|a|] == sep;
    assert s[..|a|] == a;
  }

  /** The two-piece case used by key and locator parsing. */
  lemma SplitTwo(a: string, b: string, sep: char)
    requires sep !in a && sep !in b
    ensures Split(a + [sep] + b, sep) == [a, b]
  {
    assert Join([a, b], sep) == a + [sep] + b;
    SplitJoin([a, b], sep);
  }

  /** A separator-free first piece peels off: the rest is split on its own. */
  lemma SplitCons(a: string, t: string, sep: char)
    requires sep !in a
    ensures Split(a + [sep] + t, sep) == [a] + Split(t, sep)
  {
    var s := a + [sep] + t;
    IndexAfterPrefix(a, t, sep);
    assert s[..|a|] == a;
    assert s[|a| + 1..] == t;
  }

  /** A string is its text before `i`, the character at `i` and its text after. */
  lemma Around(s: string, i: nat)
    requires i < |s|
    ensures s == s[..i] + [s[i]] + s[i + 1..]
  {
  }

  /**
   * With a separator present there are at least two pieces: the string
   * starts with the first piece, the separator and the second piece, and
   * what follows is the end or another separator.
   */
  lemma {:induction false} SplitFirstTwo(s: string, sep: char)
    requires sep in s
    ensures var parts := Split(s, sep);
      && |parts| >= 2
      && parts[0] + [sep] + parts[1] <= s
      && (|parts[0]| + 1 + |parts[1]| == |s| || s[|parts[0]| + 1 + |parts[1]|] == sep)
  {
    var i := IndexOf(s, sep);
    var a := s[..i];
    var t := s[i + 1..];
    Around(s, i);
    SplitCons(a, t, sep);
    SecondPiece(a, t, sep);
  }

  /** The piece after `a` and the separator is a prefix of the rest, ended by its end or a separator. */
  lemma {:induction false} SecondPiece(a: string, t: string, sep: char)
    ensures var b := Split(t, sep)[0];
      && a + [sep] + b <= a + [sep] + t
      && (|a| + 1 + |b| == |a + [sep] + t| || (a + [sep] + t)[|a| + 1 + |b|] == sep)
  {
    var j := IndexOf(t, sep);
    var b := t[..j];
    PrefixOfConcat(a + [sep], b, t);
    if j < |t| {
      assert (a + [sep] + t)[|a| + 1 + j] == t[j];
    }
  }

  /** Extending both sides by the same front keeps a prefix a prefix. */
  lemma PrefixOfConcat(x: string, y: string, z: string)
    requires y <= z
    ensures x + y <= x + z
  {
    assert (x + z)[..|x + y|] == x + y;
  }
}
