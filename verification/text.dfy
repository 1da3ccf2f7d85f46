/** String helpers the generators rely on: substring search and counting
    (Python's `sub in s`), character removal (`str.replace(c, '')`), line
    joining, and the geometry placeholder `$$coords:<tag>$$` that the host
    application later replaces with formatted atomic coordinates.
 */
module Text {

  /** `p` occurs in `t` starting at index `i`. */
  ghost predicate OccursAt(t: string, p: string, i: int) {
    0 <= i && i + |p| <= |t| && t[i..i + |p|] == p
  }

  /** The number of (possibly overlapping) positions at which `p` occurs in `t`. */
  function Occurrences(t: string, p: string): nat
    decreases |t|
  {
    if |t| < |p| then 0
    else (if t[..|p|] == p then 1 else 0) + (if |t| == 0 then 0 else Occurrences(t[1..], p))
  }

  /** Python's `p in t` for strings. */
  predicate Contains(t: string, p: string) {
    Occurrences(t, p) > 0
  }

  /** Counting agrees with the positional definition of an occurrence. */
  lemma {:induction false} ContainsIffOccursAt(t: string, p: string)
    ensures Contains(t, p) <==> exists i :: OccursAt(t, p, i)
    decreases |t|
  {
    if |t| >= |p| && t[..|p|] == p {
      assert OccursAt(t, p, 0);
    } else if |t| >= |p| && |t| > 0 {
      ContainsIffOccursAt(t[1..], p);
      if exists i :: OccursAt(t, p, i) {
        var i :| OccursAt(t, p, i);
        assert i != 0;
        assert t[1..][i - 1..i - 1 + |p|] == t[i..i + |p|];
        assert OccursAt(t[1..], p, i - 1);
      }
      if exists i :: OccursAt(t[1..], p, i) {
        var i :| OccursAt(t[1..], p, i);
        assert t[i + 1..i + 1 + |p|] == t[1..][i..i + |p|];
        assert OccursAt(t, p, i + 1);
      }
    }
  }

  /** No occurrence of `p` (which ends in '$') can fit into `t` when `t` has
      no '$' at or after position `k`, with `k` before the last index of `p`. */
  lemma {:induction false} NoOccurrenceWithoutDollar(t: string, p: string, k: nat)
    requires |p| >= 1 && p[|p| - 1] == '$'
    requires k <= |p| - 1
    requires forall j :: k <= j < |t| ==> t[j] != '$'
    ensures Occurrences(t, p) == 0
    decreases |t|
  {
    if |t| >= |p| {
      assert t[..|p|][|p| - 1] == t[|p| - 1];
      if |t| > 0 {
        var k' := if k == 0 then 0 else k - 1;
        NoOccurrenceWithoutDollar(t[1..], p, k');
      }
    }
  }

  /** A token that starts and ends with '$' occurs exactly once in
      `a + p + b` when neither `a` nor `b` contains '$'. */
  lemma {:induction false} OnceBetween(a: string, p: string, b: string)
    requires |p| >= 1 && p[0] == '$' && p[|p| - 1] == '$'
    requires '$' !in a && '$' !in b
    ensures Occurrences(a + p + b, p) == 1
    decreases |a|
  {
    var t := a + p + b;
    if |a| == 0 {
      assert t == p + b;
      assert t[..|p|] == p;
      var rest := t[1..];
      forall j | |p| - 1 <= j < |rest|
        ensures rest[j] != '$'
      {
        assert rest[j] == b[j - (|p| - 1)];
      }
      NoOccurrenceWithoutDollar(rest, p, |p| - 1);
    } else {
      assert t[..|p|][0] == a[0];
      assert t[1..] == a[1..] + p + b;
      OnceBetween(a[1..], p, b);
    }
  }

  /** The geometry placeholder for a coordinate-format tag. */
  function Placeholder(tag: string): (p: string)
    ensures |p| >= 2 && p[0] == '$' && p[|p| - 1] == '$'
  {
    "$$coords:" + tag + "$$"
  }

  /** A generated file holding one placeholder between '$'-free text holds
      exactly one geometry placeholder. */
  lemma PlaceholderOnce(front: string, tag: string, back: string)
    requires '$' !in front && '$' !in back
    ensures Occurrences(front + Placeholder(tag) + back, Placeholder(tag)) == 1
  {
    OnceBetween(front, Placeholder(tag), back);
  }

  /** The same, for a placeholder that sits inside a trailing block. */
  lemma PlaceholderOnceIn(front: string, line: string, tag: string, back: string)
    requires '$' !in front && '$' !in line && '$' !in back
    ensures Occurrences(front + (line + Placeholder(tag) + back), Placeholder(tag)) == 1
  {
    assert front + (line + Placeholder(tag) + back) == (front + line) + Placeholder(tag) + back;
    OnceBetween(front + line, Placeholder(tag), back);
  }

  predicate StartsWith(t: string, prefix: string) {
    |prefix| <= |t| && t[..|prefix|] == prefix
  }

  lemma StartsWithAppended(prefix: string, rest: string)
    ensures StartsWith(prefix + rest, prefix)
  {
    assert (prefix + rest)[..|prefix|] == prefix;
  }

  lemma StartsWithExtended(t: string, prefix: string, more: string)
    requires StartsWith(t, prefix)
    ensures StartsWith(t + more, prefix)
  {
    assert (t + more)[..|prefix|] == t[..|prefix|];
  }

  predicate EndsWith(t: string, suffix: string) {
    |suffix| <= |t| && t[|t| - |suffix|..] == suffix
  }

  lemma EndsWithAppended(front: string, suffix: string)
    ensures EndsWith(front + suffix, suffix)
  {
    assert (front + suffix)[|front|..] == suffix;
  }

  /** `s` with every occurrence of `c` deleted: Python's `s.replace(c, '')`
      for a one-character `c`. */
  function Without(s: string, c: char): (r: string)
    ensures c !in r
    ensures forall x :: x != c ==> (x in r <==> x in s)
    ensures |r| <= |s|
  {
    if |s| == 0 then ""
    else if s[0] == c then Without(s[1..], c)
    else [s[0]] + Without(s[1..], c)
  }

  /** Deleting a character twice is the same as deleting it once. */
  lemma {:induction false} WithoutIdempotent(s: string, c: char)
    ensures Without(Without(s, c), c) == Without(s, c)
    decreases |s|
  {
    if |s| > 0 {
      WithoutIdempotent(s[1..], c);
      if s[0] != c {
        var w := Without(s[1..], c);
        assert ([s[0]] + w)[1..] == w;
      }
    }
  }

  /** A string without `c` is left unchanged by deleting `c`. */
  lemma {:induction false} WithoutAbsent(s: string, c: char)
    requires c !in s
    ensures Without(s, c) == s
    decreases |s|
  {
    if |s| > 0 {
      assert s[0] != c;
      assert c !in s[1..];
      WithoutAbsent(s[1..], c);
      assert [s[0]] + s[1..] == s;
    }
  }

  /** Deleting from a single character keeps it unless it is `c`. */
  lemma WithoutSingle(x: char, c: char)
    ensures Without([x], c) == (if x == c then "" else [x])
  {
    assert [x][1..] == "";
  }

  /** Deleting distributes over concatenation, so the characters that stay
      keep their order and their number; with `WithoutSingle` this fixes
      `Without` on every string. */
  lemma {:induction false} WithoutAppend(a: string, b: string, c: char)
    ensures Without(a + b, c) == Without(a, c) + Without(b, c)
    decreases |a|
  {
    if |a| == 0 {
      assert a + b == b;
    } else {
      assert (a + b)[0] == a[0];
      assert (a + b)[1..] == a[1..] + b;
      WithoutAppend(a[1..], b, c);
      if a[0] != c {
        assert [a[0]] + (Without(a[1..], c) + Without(b, c))
            == ([a[0]] + Without(a[1..], c)) + Without(b, c);
      }
    }
  }

  /** The lines written one after another, as a `for line in lines: output += line` loop does. */
  function Concat(lines: seq<string>): (r: string)
    ensures forall x :: x in r <==> exists k :: 0 <= k < |lines| && x in lines[k]
  {
    if |lines| == 0 then ""
    else
      var rest := Concat(lines[1..]);
      assert forall k :: 1 <= k < |lines| ==> lines[k] == lines[1..][k - 1];
      lines[0] + rest
  }

  /** One line is written as it is. */
  lemma ConcatSingle(line: string)
    ensures Concat([line]) == line
  {
    assert [line][1..] == [];
  }

  /** Writing two batches of lines one after the other is writing them all
      in order; with `ConcatSingle` this fixes `Concat` on every list. */
  lemma {:induction false} ConcatAppend(a: seq<string>, b: seq<string>)
    ensures Concat(a + b) == Concat(a) + Concat(b)
    decreases |a|
  {
    if |a| == 0 {
      assert a + b == b;
    } else {
      assert (a + b)[0] == a[0];
      assert (a + b)[1..] == a[1..] + b;
      ConcatAppend(a[1..], b);
      assert a[0] + (Concat(a[1..]) + Concat(b)) == (a[0] + Concat(a[1..])) + Concat(b);
    }
  }
}
