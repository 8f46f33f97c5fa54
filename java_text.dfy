/**
 * `String.split` on a literal delimiter, as `java.lang.String` does it with
 * no limit: the text between the delimiter's occurrences, found left to
 * right without overlap, with trailing empty strings removed; text without
 * the delimiter splits into itself.
 */
module JavaText {
  import opened ParameterParser

  /** Every field between occurrences of `d`, empty ones included. */
  function Fields(s: string, d: string): (r: seq<string>)
    requires |d| > 0
    ensures |r| >= 1
    decreases |s|
  {
    var i := IndexOf(s, d, 0);
    if i == -1 then [s] else [s[..i]] + Fields(s[i + |d|..], d)
  }

  /** The fields put back together with `d` between each two. */
  function Join(fields: seq<string>, d: string): string
    requires |fields| >= 1
  {
    if |fields| == 1 then fields[0] else fields[0] + d + Join(fields[1..], d)
  }

  /** Splitting and joining again gives back the text. */
  lemma {:induction false} JoinFields(s: string, d: string)
    requires |d| > 0
    ensures Join(Fields(s, d), d) == s
    decreases |s|
  {
    var i := IndexOf(s, d, 0);
    if i != -1 {
      var rest := s[i + |d|..];
      JoinFields(rest, d);
      var fs := Fields(s, d);
      assert fs == [s[..i]] + Fields(rest, d);
      assert |fs| >= 2 && fs[0] == s[..i] && fs[1..] == Fields(rest, d);
      assert Join(fs, d) == s[..i] + d + rest;
      assert s[i..i + |d|] == d;
      Recompose(s, i, i + |d|);
    }
  }

  /** Cutting a text in three and gluing the pieces gives it back. */
  lemma Recompose(s: string, i: int, j: int)
    requires 0 <= i <= j <= |s|
    ensures s == s[..i] + s[i..j] + s[j..]
  {
    assert s[..j] == s[..i] + s[i..j];
    assert s == s[..j] + s[j..];
  }

  /** A field never holds the delimiter: an occurrence there would have been found first. */
  lemma {:induction false} FieldsAvoidDelimiter(s: string, d: string)
    requires |d| > 0
    ensures forall f, j :: f in Fields(s, d) ==> !OccursAt(f, d, j)
    decreases |s|
  {
    var i := IndexOf(s, d, 0);
    if i != -1 {
      var rest := s[i + |d|..];
      FieldsAvoidDelimiter(rest, d);
      forall j | OccursAt(s[..i], d, j)
        ensures false
      {
        assert s[..i][j..j + |d|] == s[j..j + |d|];
        assert OccursAt(s, d, j);
      }
    }
  }

  /** `fields` without its trailing empty strings. */
  function DropTrailingEmpty(fields: seq<string>): (r: seq<string>)
    ensures |r| <= |fields| && r == fields[..|r|]
    ensures forall j :: |r| <= j < |fields| ==> fields[j] == ""
    ensures r != [] ==> r[|r| - 1] != ""
  {
    if fields == [] || fields[|fields| - 1] != "" then fields
    else DropTrailingEmpty(fields[..|fields| - 1])
  }

  /** `s.split(d)` for a literal, non-empty delimiter. */
  function Split(s: string, d: string): (r: seq<string>)
    requires |d| > 0
  {
    if IndexOf(s, d, 0) == -1 then [s] else DropTrailingEmpty(Fields(s, d))
  }

  /** The fields in order, without the empty ones. */
  function NonEmpty(fields: seq<string>): (r: seq<string>)
    ensures |r| <= |fields|
    ensures forall f :: f in r <==> f in fields && f != ""
  {
    if fields == [] then []
    else if fields[0] == "" then NonEmpty(fields[1..])
    else [fields[0]] + NonEmpty(fields[1..])
  }

  /** Filtering a concatenation filters each part. */
  lemma {:induction false} NonEmptyAppend(a: seq<string>, b: seq<string>)
    ensures NonEmpty(a + b) == NonEmpty(a) + NonEmpty(b)
    decreases |a|
  {
    if a == [] {
      assert a + b == b;
    } else {
      NonEmptyAppend(a[1..], b);
      assert (a + b)[0] == a[0] && (a + b)[1..] == a[1..] + b;
      if a[0] != "" {
        assert NonEmpty(a + b) == [a[0]] + (NonEmpty(a[1..]) + NonEmpty(b));
      }
    }
  }

  /** Only empty strings: nothing survives the filter. */
  lemma {:induction false} NonEmptyOfEmpties(fields: seq<string>)
    requires forall j :: 0 <= j < |fields| ==> fields[j] == ""
    ensures NonEmpty(fields) == []
    decreases |fields|
  {
    if fields != [] {
      NonEmptyOfEmpties(fields[1..]);
    }
  }

  /**
   * Dropping the empty fragments of `s.split(d)` gives the non-empty
   * fields: the trailing ones `split` removes are empty anyway.
   */
  lemma SplitNonEmpty(s: string, d: string)
    requires |d| > 0
    ensures NonEmpty(Split(s, d)) == NonEmpty(Fields(s, d))
  {
    if IndexOf(s, d, 0) != -1 {
      var fields := Fields(s, d);
      var kept := DropTrailingEmpty(fields);
      assert fields == kept + fields[|kept|..];
      NonEmptyAppend(kept, fields[|kept|..]);
      NonEmptyOfEmpties(fields[|kept|..]);
      assert NonEmpty(kept) + [] == NonEmpty(kept);
    }
  }
}
