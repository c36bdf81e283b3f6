/**
 * Text helpers shared by the record writers and the construction-context
 * builders: Python's `sep.join(parts)` and `s.split(sep)`, and the view of a
 * text as newline-terminated lines.
 */
module Text {

  /** Python's `sep.join(parts)`. */
  function Join(parts: seq<string>, sep: string): string
  {
    if |parts| == 0 then ""
    else if |parts| == 1 then parts[0]
    else parts[0] + sep + Join(parts[1..], sep)
  }

  /** Python's `s.split(sep)` for a one-character separator: never empty, and
      the empty text splits into one empty field. */
  function Split(s: string, sep: char): (r: seq<string>)
    ensures |r| >= 1
    decreases |s|
  {
    if |s| == 0 then [""]
    else
      var rest := Split(s[1..], sep);
      if s[0] == sep then [""] + rest
      else [[s[0]] + rest[0]] + rest[1..]
  }

  /** The lines of a text, as `s.split("\n")` gives them. */
  function Lines(s: string): seq<string>
  {
    Split(s, '\n')
  }

  /** Each line followed by a newline: the shape of every record that ends its last line. */
  function Unlines(ls: seq<string>): string
  {
    if |ls| == 0 then "" else ls[0] + "\n" + Unlines(ls[1..])
  }

  /** None of the parts contains the separator. */
  predicate Free(parts: seq<string>, sep: char)
  {
    forall i | 0 <= i < |parts| :: sep !in parts[i]
  }

  /** Prefix every part with `p`. */
  function Prefixed(p: string, parts: seq<string>): (r: seq<string>)
    ensures |r| == |parts|
    ensures forall i | 0 <= i < |parts| :: r[i] == p + parts[i]
  {
    if |parts| == 0 then [] else [p + parts[0]] + Prefixed(p, parts[1..])
  }

  /** Splitting stops at the first separator. */
  lemma {:induction false} SplitAfter(p: string, sep: char, t: string)
    requires sep !in p
    ensures Split(p + [sep] + t, sep) == [p] + Split(t, sep)
    decreases |p|
  {
    var s := p + [sep] + t;
    if |p| == 0 {
      assert s[1..] == t;
    } else {
      assert s[1..] == p[1..] + [sep] + t;
      SplitAfter(p[1..], sep, t);
      assert [p[0]] + p[1..] == p;
    }
  }

  /** A text without the separator is a single field. */
  lemma {:induction false} SplitWhole(s: string, sep: char)
    requires sep !in s
    ensures Split(s, sep) == [s]
    decreases |s|
  {
    if |s| > 0 {
      SplitWhole(s[1..], sep);
      assert [s[0]] + s[1..] == s;
    }
  }

  /** Splitting undoes joining, when no part holds the separator. */
  lemma {:induction false} SplitJoin(parts: seq<string>, sep: char)
    requires |parts| > 0 && Free(parts, sep)
    ensures Split(Join(parts, [sep]), sep) == parts
    decreases |parts|
  {
    if |parts| == 1 {
      SplitWhole(parts[0], sep);
    } else {
      SplitJoin(parts[1..], sep);
      SplitAfter(parts[0], sep, Join(parts[1..], [sep]));
    }
  }

  /** The first field of a joined text is the first part. */
  lemma SplitJoinHead(parts: seq<string>, sep: char)
    requires |parts| > 0 && sep !in parts[0]
    ensures Split(Join(parts, [sep]), sep)[0] == parts[0]
  {
    if |parts| == 1 {
      SplitWhole(parts[0], sep);
    } else {
      SplitAfter(parts[0], sep, Join(parts[1..], [sep]));
    }
  }

  lemma {:induction false} UnlinesAppend(a: seq<string>, b: seq<string>)
    ensures Unlines(a + b) == Unlines(a) + Unlines(b)
    decreases |a|
  {
    if |a| == 0 {
      assert a + b == b;
    } else {
      assert (a + b)[1..] == a[1..] + b;
      UnlinesAppend(a[1..], b);
    }
  }

  /** A text built of complete lines reads back as those lines and a final empty field. */
  lemma {:induction false} LinesOfUnlines(ls: seq<string>)
    requires Free(ls, '\n')
    ensures Lines(Unlines(ls)) == ls + [""]
    decreases |ls|
  {
    if |ls| > 0 {
      assert Free(ls[1..], '\n');
      LinesOfUnlines(ls[1..]);
      SplitAfter(ls[0], '\n', Unlines(ls[1..]));
      assert ls[0] + "\n" + Unlines(ls[1..]) == ls[0] + ['\n'] + Unlines(ls[1..]);
      assert ls == [ls[0]] + ls[1..];
    }
  }

  /** `p + sep2.join(parts)` where `sep2` is a newline followed by `p`: every part gets `p`. */
  lemma {:induction false} JoinPrefixed(p: string, parts: seq<string>)
    requires |parts| > 0
    ensures p + Join(parts, "\n" + p) + "\n" == Unlines(Prefixed(p, parts))
    decreases |parts|
  {
    if |parts| > 1 {
      JoinPrefixed(p, parts[1..]);
      assert Prefixed(p, parts)[1..] == Prefixed(p, parts[1..]);
    }
  }

  /** A join holds a character only if a part or the separator does. */
  lemma {:induction false} JoinFree(parts: seq<string>, sep: string, c: char)
    requires Free(parts, c) && c !in sep
    ensures c !in Join(parts, sep)
    decreases |parts|
  {
    if |parts| > 1 {
      JoinFree(parts[1..], sep, c);
    }
  }

  lemma JoinPair(a: string, b: string, sep: string)
    ensures Join([a, b], sep) == a + sep + b
  {
    assert [a, b][1..] == [b];
  }
}
