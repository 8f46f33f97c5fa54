/**
 * The named-parameter parser of `SQLParameterParser`: it turns a SQL
 * template such as `... VALUES (:id, :name)` into a JDBC statement text
 * `... VALUES (?, ?)`, and recovers the order in which the keys occur so
 * that their values can be bound to the `?` positions.
 *
 * A Java `Map`'s key set is given as the sequence of its keys in the map's
 * iteration order; the values play no part here.
 */
module ParameterParser {
  import opened Wrappers

  /** `k` occurs in `s` starting at offset `i`. */
  predicate OccursAt(s: string, k: string, i: int)
  {
    0 <= i && i + |k| <= |s| && s[i..i + |k|] == k
  }

  ghost predicate Occurs(s: string, k: string)
  {
    exists i :: OccursAt(s, k, i)
  }

  /** The characters `java.util.regex` gives a special meaning. */
  const RegexMetacharacters: set<char> :=
    {'\\', '^', '$', '.', '|', '?', '*', '+', '(', ')', '[', ']', '{', '}'}

  /** A non-empty key that `String.replaceAll` reads as the literal text it is. */
  predicate LiteralKey(k: string)
  {
    |k| > 0 && forall c :: c in k ==> c !in RegexMetacharacters
  }

  // ---------------------------------------------------------------------
  // removeParameterKeys
  // ---------------------------------------------------------------------

  /**
   * `s.replaceAll(k, r)` for a literal key: the occurrences of `k` found
   * by a left-to-right scan, none overlapping the previous one, are
   * each replaced by `r`.
   */
  function ReplaceAll(s: string, k: string, r: string): string
    requires |k| > 0
    decreases |s|
  {
    if |s| < |k| then s
    else if s[..|k|] == k then r + ReplaceAll(s[|k|..], k, r)
    else [s[0]] + ReplaceAll(s[1..], k, r)
  }

  /** The template after each key, in iteration order, is replaced by `?`. */
  function RemoveAll(s: string, keys: seq<string>): string
    requires forall k :: k in keys ==> LiteralKey(k)
  {
    if keys == [] then s
    else
      assert forall k :: k in keys[..|keys| - 1] ==> k in keys;
      assert LiteralKey(keys[|keys| - 1]);
      ReplaceAll(RemoveAll(s, keys[..|keys| - 1]), keys[|keys| - 1], "?")
  }

  /** `removeParameterKeys`: the loop that replaces every key by `?`. */
  method RemoveParameterKeys(sql: string, keys: seq<string>) returns (r: string)
    requires forall k :: k in keys ==> LiteralKey(k)
    ensures r == RemoveAll(sql, keys)
    ensures keys == [] ==> r == sql
    ensures forall k :: k in keys ==> !Occurs(r, k)
  {
    r := sql;
    var j := 0;
    while j < |keys|
      invariant 0 <= j <= |keys|
      invariant forall k :: k in keys[..j] ==> k in keys
      invariant r == RemoveAll(sql, keys[..j])
      invariant forall k :: k in keys[..j] ==> !Occurs(r, k)
    {
      var key := keys[j];
      assert '?' !in key by { assert LiteralKey(key); }
      assert keys[..j + 1] == keys[..j] + [key];
      forall k | k in keys[..j + 1] ensures !Occurs(ReplaceAll(r, key, "?"), k) {
        assert k in keys;
        assert LiteralKey(k);
        ReplaceAllLeavesNoKey(r, key, k);
      }
      assert keys[..j + 1][..j] == keys[..j];
      r := ReplaceAll(r, key, "?");
      j := j + 1;
    }
    assert keys[..j] == keys;
  }

  /** Replacing by a single character never lengthens the text. */
  lemma {:induction false} ReplaceAllShrinks(s: string, k: string)
    requires |k| > 0
    ensures |ReplaceAll(s, k, "?")| <= |s|
    decreases |s|
  {
    if |s| < |k| {
    } else if s[..|k|] == k {
      ReplaceAllShrinks(s[|k|..], k);
    } else {
      ReplaceAllShrinks(s[1..], k);
    }
  }

  /**
   * A prefix of the replaced text that holds no `?` was copied unchanged
   * from the original.
   */
  lemma {:induction false} UnchangedPrefix(s: string, k: string, m: nat)
    requires |k| > 0
    requires m <= |ReplaceAll(s, k, "?")|
    ensures '?' in ReplaceAll(s, k, "?")[..m] || (m <= |s| && s[..m] == ReplaceAll(s, k, "?")[..m])
    decreases |s|
  {
    var t := ReplaceAll(s, k, "?");
    if |s| < |k| || m == 0 {
    } else if s[..|k|] == k {
      assert t[..m][0] == '?';
    } else {
      var u := ReplaceAll(s[1..], k, "?");
      assert t == [s[0]] + u;
      UnchangedPrefix(s[1..], k, m - 1);
      if '?' in u[..m - 1] {
        assert t[..m] == [s[0]] + u[..m - 1];
      } else {
        assert s[..m] == [s[0]] + s[1..][..m - 1];
        assert t[..m] == [s[0]] + u[..m - 1];
      }
    }
  }

  /** A text has no occurrence of `p` when `s` has none. */
  lemma AbsentFromSuffix(s: string, p: string, d: nat)
    requires d <= |s| && !Occurs(s, p)
    ensures !Occurs(s[d..], p)
  {
    forall i | 0 <= i && i + |p| <= |s| - d ensures !OccursAt(s[d..], p, i) {
      assert s[d..][i..i + |p|] == s[i + d..i + d + |p|];
      assert !OccursAt(s, p, i + d);
    }
  }

  /** Past the first character, occurrences are those of the rest. */
  lemma OccursAfterFront(c: char, u: string, p: string, i: int)
    requires i > 0
    ensures OccursAt([c] + u, p, i) == OccursAt(u, p, i - 1)
  {
    if i + |p| <= |u| + 1 {
      assert ([c] + u)[i..i + |p|] == u[i - 1..i - 1 + |p|];
    }
  }

  /**
   * When the scan did not match `k` at the front of `s`, an occurrence of a
   * `?`-free `p` at the front of the result was already at the front of `s`.
   */
  lemma FrontOccurrence(s: string, k: string, p: string)
    requires |k| > 0 && |p| > 0 && '?' !in p
    requires |s| >= |k| && s[..|k|] != k
    ensures OccursAt(ReplaceAll(s, k, "?"), p, 0) ==> OccursAt(s, p, 0)
  {
    var t := ReplaceAll(s, k, "?");
    var u := ReplaceAll(s[1..], k, "?");
    var m := |p| - 1;
    assert t == [s[0]] + u;
    if OccursAt(t, p, 0) {
      UnchangedPrefix(s[1..], k, m);
      assert u[..m] == p[1..];
      assert forall c :: c in p[1..] ==> c in p;
      assert s[..|p|] == [s[0]] + s[1..][..m];
    }
  }

  /**
   * `replaceAll(k, "?")` leaves no occurrence of a `?`-free `p` when `p` is
   * the key replaced, or when `p` did not occur before.
   */
  lemma {:induction false} ReplaceAllLeavesNoKey(s: string, k: string, p: string)
    requires |k| > 0 && |p| > 0 && '?' !in p
    requires p == k || !Occurs(s, p)
    ensures !Occurs(ReplaceAll(s, k, "?"), p)
    decreases |s|
  {
    var t := ReplaceAll(s, k, "?");
    if |s| < |k| {
      forall i | 0 <= i ensures !OccursAt(t, p, i) {
      }
    } else if s[..|k|] == k {
      var u := ReplaceAll(s[|k|..], k, "?");
      if p != k {
        AbsentFromSuffix(s, p, |k|);
      }
      ReplaceAllLeavesNoKey(s[|k|..], k, p);
      assert t == ['?'] + u;
      forall i | 0 <= i ensures !OccursAt(t, p, i) {
        if i == 0 {
          assert p[0] in p;
        } else {
          OccursAfterFront('?', u, p, i);
        }
      }
    } else {
      var u := ReplaceAll(s[1..], k, "?");
      if p != k {
        AbsentFromSuffix(s, p, 1);
      }
      ReplaceAllLeavesNoKey(s[1..], k, p);
      assert t == [s[0]] + u;
      forall i | 0 <= i ensures !OccursAt(t, p, i) {
        if i == 0 {
          FrontOccurrence(s, k, p);
          assert !OccursAt(s, p, 0);
        } else {
          OccursAfterFront(s[0], u, p, i);
        }
      }
    }
  }

  // ---------------------------------------------------------------------
  // getParameterKeys
  // ---------------------------------------------------------------------

  /**
   * `s.indexOf(k, from)`: the first offset at or after `from` where `k`
   * occurs, or -1.
   */
  function IndexOf(s: string, k: string, from: nat): (r: int)
    decreases |s| - from
    ensures r == -1 || (from <= r && OccursAt(s, k, r))
    ensures r == -1 ==> forall i :: from <= i ==> !OccursAt(s, k, i)
    ensures r != -1 ==> forall i :: from <= i < r ==> !OccursAt(s, k, i)
  {
    if from + |k| > |s| then -1
    else if s[from..from + |k|] == k then from
    else IndexOf(s, k, from + 1)
  }

  /**
   * One pass of the inner loop over the keys `ks`, searching from `from`:
   * the pair (`current`, `nextKey`) it ends with. A key is taken when its
   * index is above 0 and strictly below the best index so far.
   */
  function Scan(s: string, ks: seq<string>, from: nat): (nat, Option<string>)
  {
    if ks == [] then (|s|, None)
    else
      var (current, nextKey) := Scan(s, ks[..|ks| - 1], from);
      var index := IndexOf(s, ks[|ks| - 1], from);
      if index > 0 && index < current then (index, Some(ks[|ks| - 1]))
      else (current, nextKey)
  }

  /** The index `IndexOf` reports for `k` is one the scan accepts below `bound`. */
  predicate Accepted(s: string, k: string, from: nat, bound: int)
  {
    0 < IndexOf(s, k, from) < bound
  }

  /**
   * What one pass of the key loop finds: nothing, when no key has an
   * accepted index; otherwise a key of the map at its accepted index, which
   * is the smallest accepted index of all keys, and no key earlier in
   * iteration order has that same index (the comparison is a strict `<`).
   */
  lemma {:induction false} ScanPicksEarliest(s: string, ks: seq<string>, from: nat)
    ensures Scan(s, ks, from).1.None? ==>
      Scan(s, ks, from).0 == |s| && forall k :: k in ks ==> !Accepted(s, k, from, |s|)
    ensures Scan(s, ks, from).1.Some? ==>
      var (at, key) := (Scan(s, ks, from).0, Scan(s, ks, from).1.value);
      key in ks && 0 < at < |s| && IndexOf(s, key, from) == at &&
      (forall k :: k in ks ==> !Accepted(s, k, from, at))
  {
    if ks != [] {
      var front, last := ks[..|ks| - 1], ks[|ks| - 1];
      ScanPicksEarliest(s, front, from);
      assert ks == front + [last];
      var (current, nextKey) := Scan(s, front, from);
      var index := IndexOf(s, last, from);
      if index > 0 && index < current {
        assert ks[|ks| - 1] == last;
      }
    }
  }

  /**
   * On a tie the key met first in iteration order wins: no key before the
   * chosen one has the chosen index.
   */
  lemma {:induction false} ScanTieGoesToFirst(s: string, ks: seq<string>, from: nat)
    requires Scan(s, ks, from).1.Some?
    ensures exists j ::
      && 0 <= j < |ks| && ks[j] == Scan(s, ks, from).1.value
      && forall i :: 0 <= i < j ==> IndexOf(s, ks[i], from) != Scan(s, ks, from).0
  {
    var front, last := ks[..|ks| - 1], ks[|ks| - 1];
    ScanPicksEarliest(s, front, from);
    var (current, nextKey) := Scan(s, front, from);
    var index := IndexOf(s, last, from);
    if index > 0 && index < current {
      var j := |ks| - 1;
      forall i | 0 <= i < j ensures IndexOf(s, ks[i], from) != index {
        assert ks[i] == front[i];
        assert ks[i] in front;
      }
    } else {
      ScanTieGoesToFirst(s, front, from);
      var j :|
        && 0 <= j < |front| && front[j] == nextKey.value
        && forall i :: 0 <= i < j ==> IndexOf(s, front[i], from) != current;
      assert ks[j] == front[j];
      forall i | 0 <= i < j ensures IndexOf(s, ks[i], from) != current {
        assert ks[i] == front[i];
      }
    }
  }

  /** A key reported by the scan, with the offset it was found at. */
  datatype Match = Match(at: nat, key: string)

  /**
   * The matches the outer loop collects from `from` on: it repeats the scan,
   * restarting one past each match, until a scan finds nothing.
   */
  function Matches(s: string, ks: seq<string>, from: nat): seq<Match>
    requires from <= |s|
    decreases |s| - from
  {
    var (current, nextKey) := Scan(s, ks, from);
    ScanPicksEarliest(s, ks, from);
    if nextKey.None? then []
    else [Match(current, nextKey.value)] + Matches(s, ks, current + 1)
  }

  /**
   * Every match is a real occurrence of a map key, above offset 0 and at or
   * after `from`; the offsets strictly increase, so there are at most as
   * many matches as characters left to search.
   */
  lemma {:induction false} MatchesAreOrderedOccurrences(s: string, ks: seq<string>, from: nat)
    requires from <= |s|
    decreases |s| - from
    ensures var r := Matches(s, ks, from);
      |r| <= |s| - from &&
      (forall i :: 0 <= i < |r| ==>
        from <= r[i].at && 0 < r[i].at < |s| && r[i].key in ks && OccursAt(s, r[i].key, r[i].at)) &&
      (forall i, j :: 0 <= i < j < |r| ==> r[i].at < r[j].at)
  {
    var (current, nextKey) := Scan(s, ks, from);
    ScanPicksEarliest(s, ks, from);
    if nextKey.Some? {
      MatchesAreOrderedOccurrences(s, ks, current + 1);
      var rest := Matches(s, ks, current + 1);
      assert Matches(s, ks, from) == [Match(current, nextKey.value)] + rest;
    }
  }

  /** One round of the outer loop, on the matches. */
  lemma MatchesStep(s: string, ks: seq<string>, from: nat)
    requires from <= |s|
    ensures Scan(s, ks, from).1.None? ==> Matches(s, ks, from) == []
    ensures Scan(s, ks, from).1.Some? ==>
      from <= Scan(s, ks, from).0 < |s| &&
      Matches(s, ks, from) == [Match(Scan(s, ks, from).0, Scan(s, ks, from).1.value)] + Matches(s, ks, Scan(s, ks, from).0 + 1)
  {
    ScanPicksEarliest(s, ks, from);
  }

  /** A pass that can see an occurrence of a key at `p` finds a key, at `p` or before. */
  lemma ScanReachesOccurrence(s: string, ks: seq<string>, from: nat, k: string, p: nat)
    requires from <= p < |s| && 0 < p && k in ks && OccursAt(s, k, p)
    requires from > 0 || !OccursAt(s, k, 0)
    ensures Scan(s, ks, from).1.Some? && Scan(s, ks, from).0 <= p
  {
    ScanPicksEarliest(s, ks, from);
    var index := IndexOf(s, k, from);
    assert index != -1;
    assert Accepted(s, k, from, |s|);
  }

  /**
   * Completeness: every offset above 0, at or after `from`, where a key of
   * the map occurs is reported. A search from 0 needs that key not to
   * occur at offset 0 as well, since `indexOf` then answers 0, which the
   * scan refuses.
   */
  lemma {:induction false} MatchesAreComplete(s: string, ks: seq<string>, from: nat, k: string, p: nat)
    requires from <= p < |s| && 0 < p && k in ks && OccursAt(s, k, p)
    requires from > 0 || !OccursAt(s, k, 0)
    ensures p in Offsets(Matches(s, ks, from))
    decreases |s| - from
  {
    ScanReachesOccurrence(s, ks, from, k, p);
    OffsetsStep(s, ks, from);
    var current := Scan(s, ks, from).0;
    if current != p {
      MatchesAreComplete(s, ks, current + 1, k, p);
    }
  }

  /** The offsets reported from `from` on: the first one found, then those from just past it. */
  lemma OffsetsStep(s: string, ks: seq<string>, from: nat)
    requires from <= |s| && Scan(s, ks, from).1.Some?
    ensures from <= Scan(s, ks, from).0 < |s|
    ensures Offsets(Matches(s, ks, from)) == {Scan(s, ks, from).0} + Offsets(Matches(s, ks, Scan(s, ks, from).0 + 1))
  {
    MatchesStep(s, ks, from);
    OffsetsPrepend(Match(Scan(s, ks, from).0, Scan(s, ks, from).1.value), Matches(s, ks, Scan(s, ks, from).0 + 1));
  }

  /** Some key of the map occurs in `s` at offset `p`. */
  predicate KeyAt(s: string, ks: seq<string>, p: int)
  {
    exists k :: k in ks && OccursAt(s, k, p)
  }

  /** The offsets of a list of matches. */
  function Offsets(ms: seq<Match>): (r: set<nat>)
    ensures forall i :: 0 <= i < |ms| ==> ms[i].at in r
    ensures forall p :: p in r ==> exists i :: 0 <= i < |ms| && ms[i].at == p
  {
    set i | 0 <= i < |ms| :: ms[i].at
  }

  /** The offsets of a match followed by more. */
  lemma OffsetsPrepend(m: Match, ms: seq<Match>)
    ensures Offsets([m] + ms) == {m.at} + Offsets(ms)
  {
    var all := [m] + ms;
    forall p | p in Offsets(all) ensures p in {m.at} + Offsets(ms) {
      var i :| 0 <= i < |all| && all[i].at == p;
      if i > 0 {
        assert ms[i - 1].at == p;
      }
    }
    forall p | p in Offsets(ms) ensures p in Offsets(all) {
      var i :| 0 <= i < |ms| && ms[i].at == p;
      assert all[i + 1].at == p;
    }
    assert all[0].at == m.at;
  }

  /** The offsets of a list of matches and one more. */
  lemma OffsetsAppend(ms: seq<Match>, m: Match)
    ensures Offsets(ms + [m]) == Offsets(ms) + {m.at}
  {
    var all := ms + [m];
    forall p | p in Offsets(all) ensures p in Offsets(ms) + {m.at} {
      var i :| 0 <= i < |all| && all[i].at == p;
      if i < |ms| {
        assert ms[i].at == p;
      }
    }
    forall p | p in Offsets(ms) ensures p in Offsets(all) {
      var i :| 0 <= i < |ms| && ms[i].at == p;
      assert all[i].at == p;
    }
    assert all[|ms|].at == m.at;
  }

  /** Strictly increasing offsets are all different: there are as many as matches. */
  lemma {:induction false} IncreasingOffsetsCount(ms: seq<Match>)
    requires forall i, j :: 0 <= i < j < |ms| ==> ms[i].at < ms[j].at
    ensures |Offsets(ms)| == |ms|
  {
    if ms != [] {
      var front, last := ms[..|ms| - 1], ms[|ms| - 1];
      assert ms == front + [last];
      IncreasingOffsetsCount(front);
      OffsetsAppend(front, last);
    }
  }

  /**
   * When no key occurs at offset 0, the scan reports each offset where a
   * key of the map occurs, once, and nothing else: the number of keys
   * `getParameterKeys` returns is the number of such offsets.
   */
  lemma MatchesAreTheKeyOffsets(s: string, ks: seq<string>)
    requires forall k :: k in ks ==> !OccursAt(s, k, 0)
    ensures Offsets(Matches(s, ks, 0)) == set p | 0 <= p < |s| && KeyAt(s, ks, p)
    ensures |KeysOf(Matches(s, ks, 0))| == |set p | 0 <= p < |s| && KeyAt(s, ks, p)|
  {
    var ms := Matches(s, ks, 0);
    MatchesAreOrderedOccurrences(s, ks, 0);
    forall p | 0 <= p < |s| && KeyAt(s, ks, p)
      ensures p in Offsets(ms)
    {
      var k :| k in ks && OccursAt(s, k, p);
      MatchesAreComplete(s, ks, 0, k, p);
    }
    forall p | p in Offsets(ms)
      ensures 0 <= p < |s| && KeyAt(s, ks, p)
    {
      var i :| 0 <= i < |ms| && ms[i].at == p;
      assert ms[i].key in ks && OccursAt(s, ms[i].key, p);
    }
    IncreasingOffsetsCount(ms);
  }

  /** The count of `MatchesAreTheKeyOffsets`, under its own condition. */
  lemma KeysCountOffsets(s: string, ks: seq<string>)
    ensures (forall k :: k in ks ==> !OccursAt(s, k, 0)) ==>
      |KeysOf(Matches(s, ks, 0))| == |set p | 0 <= p < |s| && KeyAt(s, ks, p)|
  {
    if forall k :: k in ks ==> !OccursAt(s, k, 0) {
      MatchesAreTheKeyOffsets(s, ks);
    }
  }

  function KeysOf(ms: seq<Match>): seq<string>
  {
    seq(|ms|, i requires 0 <= i < |ms| => ms[i].key)
  }

  /** One round of the outer loop, on the keys it reports. */
  lemma KeysOfStep(s: string, ks: seq<string>, from: nat)
    requires from <= |s|
    ensures Scan(s, ks, from).1.None? ==> KeysOf(Matches(s, ks, from)) == []
    ensures Scan(s, ks, from).1.Some? ==>
      from <= Scan(s, ks, from).0 < |s| &&
      KeysOf(Matches(s, ks, from)) ==
        [Scan(s, ks, from).1.value] + KeysOf(Matches(s, ks, Scan(s, ks, from).0 + 1))
  {
    ScanPicksEarliest(s, ks, from);
    var (current, nextKey) := Scan(s, ks, from);
    if nextKey.Some? {
      var rest := Matches(s, ks, current + 1);
      assert Matches(s, ks, from) == [Match(current, nextKey.value)] + rest;
    }
  }

  /**
   * Every reported key is a key of the map, an empty map reports nothing,
   * and there are no more keys than characters in the template.
   */
  lemma ReportedKeysComeFromTheMap(s: string, ks: seq<string>)
    ensures forall k :: k in KeysOf(Matches(s, ks, 0)) ==> k in ks
    ensures ks == [] ==> KeysOf(Matches(s, ks, 0)) == []
    ensures |KeysOf(Matches(s, ks, 0))| <= |s|
  {
    MatchesAreOrderedOccurrences(s, ks, 0);
    var ms := Matches(s, ks, 0);
    var r := KeysOf(ms);
    forall k | k in r ensures k in ks {
      var i :| 0 <= i < |r| && r[i] == k;
      assert ms[i].key in ks;
    }
  }

  /**
   * The body of `getParameterKeys`' outer loop up to the test of `nextKey`:
   * the loop over the keys that looks for the first key after `fromIndex`.
   */
  method NextKey(sql: string, keys: seq<string>, fromIndex: nat) returns (current: nat, nextKey: Option<string>)
    ensures (current, nextKey) == Scan(sql, keys, fromIndex)
  {
    current := |sql|;
    nextKey := None;
    var j := 0;
    while j < |keys|
      invariant 0 <= j <= |keys|
      invariant (current, nextKey) == Scan(sql, keys[..j], fromIndex)
    {
      var index := IndexOf(sql, keys[j], fromIndex);
      assert keys[..j + 1][..j] == keys[..j];
      if index > 0 && index < current {
        current := index;
        nextKey := Some(keys[j]);
      }
      j := j + 1;
    }
    assert keys[..j] == keys;
  }

  /** `getParameterKeys`: the keys in the order the scan finds them. */
  method GetParameterKeys(sql: string, keys: seq<string>) returns (r: seq<string>)
    ensures r == KeysOf(Matches(sql, keys, 0))
    ensures forall k :: k in r ==> k in keys
    ensures keys == [] ==> r == []
    ensures |r| <= |sql|
    ensures (forall k :: k in keys ==> !OccursAt(sql, k, 0)) ==>
      |r| == |set p | 0 <= p < |sql| && KeyAt(sql, keys, p)|
  {
    r := [];
    var fromIndex: nat := 0;
    var finished := false;
    while !finished
      invariant fromIndex <= |sql|
      invariant !finished ==> r + KeysOf(Matches(sql, keys, fromIndex)) == KeysOf(Matches(sql, keys, 0))
      invariant finished ==> r == KeysOf(Matches(sql, keys, 0))
      decreases |sql| - fromIndex, !finished
    {
      var current, nextKey := NextKey(sql, keys, fromIndex);
      KeysOfStep(sql, keys, fromIndex);
      if nextKey.Some? {
        r := r + [nextKey.value];
        fromIndex := current + 1;
      } else {
        finished := true;
      }
    }
    ReportedKeysComeFromTheMap(sql, keys);
    KeysCountOffsets(sql, keys);
  }
}

/** Worked examples of the parser on concrete templates. */
module ParameterParserExamples {
  import opened Wrappers
  import opened ParameterParser

  /** A stretch of text without the key's first character is copied over unchanged. */
  lemma {:induction false} ReplaceAllSkips(a: string, b: string, k: string)
    requires |k| > 0 && k[0] !in a
    ensures ReplaceAll(a + b, k, "?") == a + ReplaceAll(b, k, "?")
    decreases |a|
  {
    if a != [] {
      var s := a + b;
      assert a[0] in a;
      assert s[1..] == a[1..] + b;
      ReplaceAllSkips(a[1..], b, k);
      if |s| >= |k| {
        assert s[..|k|][0] != k[0];
        assert ReplaceAll(s, k, "?") == [s[0]] + ReplaceAll(s[1..], k, "?");
        assert a == [a[0]] + a[1..];
      } else {
        assert ReplaceAll(b, k, "?") == b;
      }
    } else {
      assert a + b == b;
    }
  }

  /** Searching past a prefix is searching the rest, shifted by the prefix's length. */
  lemma {:induction false} IndexOfPast(a: string, b: string, k: string, j: nat)
    ensures IndexOf(a + b, k, |a| + j) ==
      if IndexOf(b, k, j) == -1 then -1 else |a| + IndexOf(b, k, j)
    decreases |b| - j
  {
    if j + |k| <= |b| {
      assert (a + b)[|a| + j..|a| + j + |k|] == b[j..j + |k|];
      if b[j..j + |k|] != k {
        IndexOfPast(a, b, k, j + 1);
      }
    }
  }

  /** A stretch of text without the key's first character holds no occurrence. */
  lemma {:induction false} IndexOfSkips(a: string, b: string, k: string, from: nat)
    requires |k| > 0 && k[0] !in a && from <= |a|
    ensures IndexOf(a + b, k, from) == IndexOf(a + b, k, |a|)
    decreases |a| - from
  {
    if from < |a| && from + |k| <= |a + b| {
      assert (a + b)[from..from + |k|][0] == a[from];
      IndexOfSkips(a, b, k, from + 1);
    }
  }

  const Head := "INSERT INTO `table` ('id', 'name') VALUES ("
  const Tail := ":id, :name)"
  const Template := "INSERT INTO `table` ('id', 'name') VALUES (:id, :name)"

  lemma NameInTail()
    ensures ReplaceAll(Tail, ":name", "?") == ":id, ?)"
  {
    assert Tail[..5] == ":id, ";
    assert Tail[1..] == "id, " + ":name)";
    ReplaceAllSkips("id, ", ":name)", ":name");
    assert ":name)"[..5] == ":name" && ":name)"[5..] == ")";
    assert ReplaceAll(")", ":name", "?") == ")";
  }

  lemma IdAfterName()
    ensures ReplaceAll(":id, ?)", ":id", "?") == "?, ?)"
  {
    assert ":id, ?)"[..3] == ":id" && ":id, ?)"[3..] == ", ?)";
    ReplaceAllSkips(", ?)", "", ":id");
    assert ReplaceAll("", ":id", "?") == "";
  }

  lemma IdNotInName()
    ensures ReplaceAll(":name)", ":id", "?") == ":name)"
  {
    assert ":name)"[..3] == ":na" && ":name)"[1..] == "name)" + "";
    ReplaceAllSkips("name)", "", ":id");
    assert ReplaceAll("", ":id", "?") == "";
  }

  /**
   * A key, then text without the key's first character, then text with no
   * occurrence of the key: only the leading key is replaced.
   */
  lemma ReplaceLeadingKey(k: string, mid: string, after: string)
    requires |k| > 0 && k[0] !in mid && ReplaceAll(after, k, "?") == after
    ensures ReplaceAll(k + (mid + after), k, "?") == "?" + (mid + after)
  {
    assert (k + (mid + after))[..|k|] == k && (k + (mid + after))[|k|..] == mid + after;
    ReplaceAllSkips(mid, after, k);
  }

  lemma TailParts()
    ensures Tail == ":id" + (", " + ":name)")
    ensures "?" + (", " + ":name)") == "?, :name)"
  {
  }

  lemma IdInTail()
    ensures ReplaceAll(Tail, ":id", "?") == "?, :name)"
  {
    IdNotInName();
    ReplaceLeadingKey(":id", ", ", ":name)");
    TailParts();
  }

  lemma NameAfterId()
    ensures ReplaceAll("?, :name)", ":name", "?") == "?, ?)"
  {
    assert "?, :name)" == "?, " + ":name)";
    ReplaceAllSkips("?, ", ":name)", ":name");
    assert ":name)"[..5] == ":name" && ":name)"[5..] == ")";
    assert ReplaceAll(")", ":name", "?") == ")";
  }

  /** Two keys are replaced one after the other, in iteration order. */
  lemma RemoveTwo(s: string, a: string, b: string)
    requires LiteralKey(a) && LiteralKey(b)
    ensures RemoveAll(s, [a, b]) == ReplaceAll(ReplaceAll(s, a, "?"), b, "?")
  {
    assert RemoveAll(s, [a]) == ReplaceAll(s, a, "?") by {
      assert [a][..0] == [];
    }
    assert RemoveAll(s, [a, b]) == ReplaceAll(RemoveAll(s, [a]), b, "?") by {
      assert [a, b][..1] == [a];
    }
  }

  /**
   * Whatever comes before `(:id, :name)`, as long as it holds no `:`, both
   * iteration orders of the map {":name", ":id"} turn it into `(?, ?)`.
   */
  lemma RemoveKeysAfter(head: string, s: string)
    requires ':' !in head && s == head + Tail
    ensures RemoveAll(s, [":name", ":id"]) == head + "?, ?)"
    ensures RemoveAll(s, [":id", ":name"]) == head + "?, ?)"
  {
    RemoveTwo(s, ":name", ":id");
    ReplaceAllSkips(head, Tail, ":name");
    NameInTail();
    ReplaceAllSkips(head, ":id, ?)", ":id");
    IdAfterName();
    RemoveTwo(s, ":id", ":name");
    ReplaceAllSkips(head, Tail, ":id");
    IdInTail();
    ReplaceAllSkips(head, "?, :name)", ":name");
    NameAfterId();
  }

  /** The statement text of the template, for both iteration orders. */
  lemma RemoveKeysOfTemplate(s: string)
    requires s == Template
    ensures RemoveAll(s, [":name", ":id"]) == Head + "?, ?)"
    ensures RemoveAll(s, [":id", ":name"]) == Head + "?, ?)"
  {
    RemoveKeysAfter(Head, s);
  }

  /** The only colons of the example's tail are at 0 and 5. */
  lemma TailColons(t: string, k: string, i: int)
    requires t == Tail && |k| > 0 && k[0] == ':' && OccursAt(t, k, i)
    ensures i == 0 || i == 5
  {
    assert t[i..i + |k|][0] == t[i];
  }

  /** Where each key of the example lies in its tail, searching from 0, 1 and 6. */
  lemma TailIndices(t: string)
    requires t == Tail
    ensures IndexOf(t, ":id", 0) == 0 && IndexOf(t, ":name", 0) == 5
    ensures IndexOf(t, ":id", 1) == -1 && IndexOf(t, ":name", 1) == 5
    ensures IndexOf(t, ":id", 6) == -1 && IndexOf(t, ":name", 6) == -1
  {
    assert OccursAt(t, ":id", 0) by { assert t[0..3] == ":id"; }
    assert OccursAt(t, ":name", 5) by { assert t[5..10] == ":name"; }
    assert !OccursAt(t, ":name", 0) by { assert t[0..5] != ":name" by { assert t[1] != ':'; } }
    assert !OccursAt(t, ":id", 5) by { assert t[5..8] != ":id" by { assert t[6] != 'i'; } }
    var r := IndexOf(t, ":name", 0);
    if r != -1 { TailColons(t, ":name", r); }
    r := IndexOf(t, ":name", 1);
    if r != -1 { TailColons(t, ":name", r); }
    r := IndexOf(t, ":name", 6);
    if r != -1 { TailColons(t, ":name", r); }
    r := IndexOf(t, ":id", 1);
    if r != -1 { TailColons(t, ":id", r); }
    r := IndexOf(t, ":id", 6);
    if r != -1 { TailColons(t, ":id", r); }
  }

  /** A key's index in `head + Tail`, from a start inside the tail. */
  lemma IndexInTemplate(head: string, s: string, k: string, j: nat)
    requires ':' !in head && s == head + Tail && k in [":id", ":name"] && j in {0, 1, 6}
    ensures IndexOf(s, k, |head| + j) ==
      if IndexOf(Tail, k, j) == -1 then -1 else |head| + IndexOf(Tail, k, j)
    ensures j == 0 ==> IndexOf(s, k, 0) == IndexOf(s, k, |head|)
  {
    IndexOfPast(head, Tail, k, j);
    if j == 0 {
      IndexOfSkips(head, Tail, k, 0);
    }
  }

  /** One pass of the key loop over a map with two keys `a` then `b`. */
  lemma ScanPair(s: string, a: string, b: string, from: nat)
    ensures Scan(s, [a, b], from) ==
      var x := IndexOf(s, a, from);
      var y := IndexOf(s, b, from);
      var first := if 0 < x < |s| then (x, Some(a)) else (|s|, None);
      if 0 < y < first.0 then (y, Some(b)) else first
  {
    assert [a, b][..1] == [a];
    assert [a][..0] == [];
    var x := IndexOf(s, a, from);
    assert Scan(s, [a], from) == if 0 < x < |s| then (x, Some(a)) else (|s|, None);
  }

  /** The index of each key in `head + Tail`, searching from `|head| + j`. */
  lemma IndicesFrom(head: string, s: string, j: nat)
    requires ':' !in head && s == head + Tail && j in {0, 1, 6}
    ensures IndexOf(s, ":id", |head| + j) == (if j == 0 then |head| else -1)
    ensures IndexOf(s, ":name", |head| + j) == (if j == 6 then -1 else |head| + 5)
  {
    TailIndices(Tail);
    IndexInTemplate(head, s, ":id", j);
    IndexInTemplate(head, s, ":name", j);
  }

  /** The index of each key in `head + Tail`, from 0, just past the first key, and just past the second. */
  lemma IndicesAfter(head: string, s: string)
    requires ':' !in head && s == head + Tail
    ensures IndexOf(s, ":id", 0) == |head| && IndexOf(s, ":name", 0) == |head| + 5
    ensures IndexOf(s, ":id", |head| + 1) == -1 && IndexOf(s, ":name", |head| + 1) == |head| + 5
    ensures IndexOf(s, ":id", |head| + 6) == -1 && IndexOf(s, ":name", |head| + 6) == -1
  {
    IndicesFrom(head, s, 0);
    IndexInTemplate(head, s, ":id", 0);
    IndexInTemplate(head, s, ":name", 0);
    IndicesFrom(head, s, 1);
    IndicesFrom(head, s, 6);
  }

  /** The three passes of the key loop over `head + Tail`. */
  lemma ScansAfter(head: string, s: string, ks: seq<string>)
    requires ':' !in head && |head| > 0 && s == head + Tail
    requires ks == [":name", ":id"] || ks == [":id", ":name"]
    ensures Scan(s, ks, 0) == (|head|, Some(":id"))
    ensures Scan(s, ks, |head| + 1) == (|head| + 5, Some(":name"))
    ensures Scan(s, ks, |head| + 6).1.None?
  {
    IndicesAfter(head, s);
    assert |s| == |head| + 11;
    assert ks == [ks[0], ks[1]];
    ScanPair(s, ks[0], ks[1], 0);
    ScanPair(s, ks[0], ks[1], |head| + 1);
    ScanPair(s, ks[0], ks[1], |head| + 6);
  }

  /**
   * With any colon-free, non-empty text before the tail, the keys are reported
   * in the order they occur, whichever order the map yields them in.
   */
  lemma KeysAfter(head: string, s: string, ks: seq<string>)
    requires ':' !in head && |head| > 0 && s == head + Tail
    requires ks == [":name", ":id"] || ks == [":id", ":name"]
    ensures KeysOf(Matches(s, ks, 0)) == [":id", ":name"]
  {
    ScansAfter(head, s, ks);
    KeysOfStep(s, ks, 0);
    KeysOfStep(s, ks, |head| + 1);
    KeysOfStep(s, ks, |head| + 6);
  }

  /** The keys of the example statement, in either iteration order of its map. */
  lemma KeysOfTemplate(s: string)
    requires s == Template
    ensures KeysOf(Matches(s, [":name", ":id"], 0)) == [":id", ":name"]
    ensures KeysOf(Matches(s, [":id", ":name"], 0)) == [":id", ":name"]
  {
    KeysAfter(Head, s, [":name", ":id"]);
    KeysAfter(Head, s, [":id", ":name"]);
  }

  /**
   * The scan accepts only indices above 0: a statement that starts with its
   * only key reports no keys at all, even where that key occurs again later.
   */
  lemma LeadingKeyIsNotReported(s: string, k: string)
    requires OccursAt(s, k, 0)
    ensures KeysOf(Matches(s, [k], 0)) == []
  {
    assert IndexOf(s, k, 0) == 0;
    assert [k][..0] == [];
    assert Scan(s, [k], 0).1.None?;
    KeysOfStep(s, [k], 0);
  }

  /**
   * A key that overlaps itself is reported once per occurrence, but
   * `replaceAll` replaces only the first of two overlapping occurrences:
   * in `xaaa` the key `aa` is reported twice and leaves one `?`.
   */
  lemma OverlappingKeyIsReportedTwice(s: string, k: string)
    requires s == "xaaa" && k == "aa"
    ensures KeysOf(Matches(s, [k], 0)) == [k, k]
    ensures RemoveAll(s, [k]) == "x?a"
  {
    assert [k][..0] == [];
    assert s[0] == 'x' && s[1..3] == k && s[2..4] == k;
    assert OccursAt(s, k, 1) && OccursAt(s, k, 2) && !OccursAt(s, k, 0);
    assert Scan(s, [k], 0) == (1, Some(k));
    assert Scan(s, [k], 2) == (2, Some(k));
    assert Scan(s, [k], 3).1.None?;
    KeysOfStep(s, [k], 0);
    KeysOfStep(s, [k], 2);
    KeysOfStep(s, [k], 3);
    assert s[1..] == "aaa" && "aaa"[2..] == "a";
    assert ReplaceAll("a", k, "?") == "a";
    assert ReplaceAll("aaa", k, "?") == "?" + "a";
    assert ReplaceAll(s, k, "?") == "x" + "?a";
  }
}
