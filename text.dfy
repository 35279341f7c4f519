/**
 * The two string operations the message callback relies on: Python's
 * `str.split(',')` and `str.index(pattern)`.
 */
module Text {
  import opened Wrappers

  const Comma: char := ','

  /** True when `s` contains no field separator. */
  predicate NoComma(s: string) {
    Comma !in s
  }

  /**
   * `s.split(',')`: every comma ends one field and starts the next, so the
   * empty string gives one empty field and "a," gives ["a", ""].
   */
  function Split(s: string): (fields: seq<string>)
    ensures |fields| >= 1
    ensures forall i :: 0 <= i < |fields| ==> NoComma(fields[i])
    ensures NoComma(s) ==> fields == [s]
  {
    if |s| == 0 then [""]
    else if s[0] == Comma then [""] + Split(s[1..])
    else
      var rest := Split(s[1..]);
      assert NoComma(s) ==> NoComma(s[1..]) by {
        forall c | c in s[1..] ensures c in s {
          var k :| 0 <= k < |s[1..]| && s[1..][k] == c;
          assert s[k + 1] == c;
        }
      }
      assert s == [s[0]] + s[1..];
      [[s[0]] + rest[0]] + rest[1..]
  }

  /** `','.join(fields)`, the inverse of Split. */
  function Join(fields: seq<string>): string
  {
    if |fields| == 0 then ""
    else if |fields| == 1 then fields[0]
    else fields[0] + [Comma] + Join(fields[1..])
  }

  /** Joining the fields of a split gives back the string that was split. */
  lemma {:induction false} JoinSplit(s: string)
    ensures Join(Split(s)) == s
  {
    if |s| == 0 {
    } else if s[0] == Comma {
      JoinSplit(s[1..]);
      assert Split(s) == [""] + Split(s[1..]);
      assert s == [Comma] + s[1..];
    } else {
      var rest := Split(s[1..]);
      JoinSplit(s[1..]);
      if |rest| > 1 {
        assert Join(rest) == rest[0] + [Comma] + Join(rest[1..]);
      }
      assert s == [s[0]] + s[1..];
    }
  }

  /** Splitting a comma-free prefix onto `t` only extends the first field of `t`. */
  lemma {:induction false} SplitPrefix(f: string, t: string)
    requires NoComma(f)
    ensures Split(f + t) == [f + Split(t)[0]] + Split(t)[1..]
  {
    if |f| > 0 {
      assert (f + t)[1..] == f[1..] + t;
      assert f[0] in f;
      SplitPrefix(f[1..], t);
      assert [f[0]] + (f[1..] + Split(t)[0]) == f + Split(t)[0];
    } else {
      assert f + t == t;
      assert f + Split(t)[0] == Split(t)[0];
      assert Split(t) == [Split(t)[0]] + Split(t)[1..];
    }
  }

  /** Splitting the join of comma-free fields gives back those fields. */
  lemma {:induction false} SplitJoin(fields: seq<string>)
    requires |fields| >= 1
    requires forall i :: 0 <= i < |fields| ==> NoComma(fields[i])
    ensures Split(Join(fields)) == fields
  {
    if |fields| > 1 {
      var rest := Join(fields[1..]);
      SplitJoin(fields[1..]);
      assert fields[0] + [Comma] + rest == fields[0] + ([Comma] + rest);
      SplitPrefix(fields[0], [Comma] + rest);
      assert ([Comma] + rest)[1..] == rest;
      assert Split([Comma] + rest) == [""] + Split(rest);
      assert fields[0] + "" == fields[0];
      assert fields == [fields[0]] + fields[1..];
    }
  }

  /** `pat` occurs in `s` starting at position `i`. */
  predicate OccursAt(s: string, pat: string, i: int) {
    0 <= i && i + |pat| <= |s| && s[i..i + |pat|] == pat
  }

  /** Shifting a position by one: occurrences in `s[1..]` are those of `s` from 1 on. */
  lemma OccursAtTail(s: string, pat: string, j: int)
    requires |s| > 0 && 0 <= j
    ensures OccursAt(s[1..], pat, j) <==> OccursAt(s, pat, j + 1)
  {
  }

  /**
   * `s.index(pat)` as an option: the lowest position where `pat` occurs, or
   * None where Python raises ValueError.
   */
  function IndexOf(s: string, pat: string): (r: Option<nat>)
    ensures r.Some? ==> OccursAt(s, pat, r.value)
    ensures r.Some? ==> forall j :: 0 <= j < r.value ==> !OccursAt(s, pat, j)
    ensures r.None? ==> forall j :: !OccursAt(s, pat, j)
    decreases |s|
  {
    if |s| < |pat| then None
    else if s[..|pat|] == pat then Some(0)
    else
      var tail := IndexOf(s[1..], pat);
      assert !OccursAt(s, pat, 0) by {
        assert s[0..|pat|] == s[..|pat|];
      }
      assert forall j :: 1 <= j ==> (OccursAt(s, pat, j) <==> OccursAt(s[1..], pat, j - 1)) by {
        forall j | 1 <= j ensures OccursAt(s, pat, j) <==> OccursAt(s[1..], pat, j - 1) {
          OccursAtTail(s, pat, j - 1);
        }
      }
      match tail
      case None => None
      case Some(k) => Some(k + 1)
  }
}
