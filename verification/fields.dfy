/**
 * Joining strings with a one-character separator (Go's `strings.Join`) and
 * the matching split, used to read a cron expression's fields back.
 */
module Fields {

  /** The elements of `fs` with `sep` between neighbours; the empty list joins to "". */
  function Join(fs: seq<string>, sep: char): (s: string)
    decreases |fs|
  {
    if |fs| == 0 then ""
    else if |fs| == 1 then fs[0]
    else fs[0] + [sep] + Join(fs[1..], sep)
  }

  /** The maximal pieces of `s` between occurrences of `sep`; always at least one piece. */
  function Split(s: string, sep: char): (fs: seq<string>)
    ensures |fs| >= 1
    decreases |s|
  {
    if |s| == 0 then [""]
    else
      var rest := Split(s[1..], sep);
      if s[0] == sep then [""] + rest
      else [[s[0]] + rest[0]] + rest[1..]
  }

  /** None of the strings contains the separator. */
  predicate NoSeparator(fs: seq<string>, sep: char) {
    forall i :: 0 <= i < |fs| ==> sep !in fs[i]
  }

  lemma {:induction false} SplitPiece(f: string, sep: char)
    requires sep !in f
    ensures Split(f, sep) == [f]
    decreases |f|
  {
    if |f| > 0 {
      SplitPiece(f[1..], sep);
      assert [f[0]] + f[1..] == f;
    }
  }

  lemma {:induction false} SplitCons(f: string, sep: char, t: string)
    requires sep !in f
    ensures Split(f + [sep] + t, sep) == [f] + Split(t, sep)
    decreases |f|
  {
    var s := f + [sep] + t;
    if |f| == 0 {
      assert s[1..] == t;
    } else {
      assert s[1..] == f[1..] + [sep] + t;
      SplitCons(f[1..], sep, t);
      assert [f[0]] + f[1..] == f;
    }
  }

  /** Splitting a non-empty join on its separator gives back the joined strings. */
  lemma {:induction false} SplitJoin(fs: seq<string>, sep: char)
    requires |fs| >= 1 && NoSeparator(fs, sep)
    ensures Split(Join(fs, sep), sep) == fs
    decreases |fs|
  {
    if |fs| == 1 {
      SplitPiece(fs[0], sep);
    } else {
      SplitCons(fs[0], sep, Join(fs[1..], sep));
      SplitJoin(fs[1..], sep);
      assert [fs[0]] + fs[1..] == fs;
    }
  }
}
