/** Substring search and Python's `str.replace` on `seq<char>`. */
module Strings {

  /** `p` occurs in `s` starting at index `i`. */
  predicate At(s: string, p: string, i: int)
  {
    0 <= i && i + |p| <= |s| && s[i..i + |p|] == p
  }

  /** Python's `p in s`. */
  predicate Occurs(s: string, p: string)
  {
    exists i | 0 <= i <= |s| - |p| :: At(s, p, i)
  }

  /** No character of `p` is a character of `r`. */
  predicate Disjoint(p: string, r: string)
  {
    forall c :: c in p ==> c !in r
  }

  /** Python's `s.replace(p, r)` for a non-empty pattern: scanning left to right,
      every non-overlapping occurrence of `p` is replaced by `r`. */
  function Replace(s: string, p: string, r: string): (out: string)
    requires |p| > 0
    ensures forall c | c in out :: c in s || c in r
    decreases |s|
  {
    if |s| < |p| then s
    else if s[..|p|] == p then r + Replace(s[|p|..], p, r)
    else [s[0]] + Replace(s[1..], p, r)
  }

  /** A non-empty string stays non-empty when the replacement is non-empty. */
  lemma ReplaceNonEmpty(s: string, p: string, r: string)
    requires |p| > 0 && |r| > 0
    ensures |s| > 0 ==> |Replace(s, p, r)| > 0
  {
  }

  /** An occurrence in a suffix is an occurrence in the whole string. */
  lemma OccursInSuffix(s: string, p: string, m: nat)
    requires m <= |s|
    requires Occurs(s[m..], p)
    ensures Occurs(s, p)
  {
    var i :| 0 <= i <= |s[m..]| - |p| && At(s[m..], p, i);
    assert s[m..][i..i + |p|] == s[m + i..m + i + |p|];
    assert At(s, p, m + i);
  }

  /** Without an occurrence, replacing changes nothing. */
  lemma {:induction false} ReplaceIdentity(s: string, p: string, r: string)
    requires |p| > 0
    requires !Occurs(s, p)
    ensures Replace(s, p, r) == s
    decreases |s|
  {
    if |s| >= |p| {
      assert !At(s, p, 0);
      if Occurs(s[1..], p) {
        OccursInSuffix(s, p, 1);
      }
      ReplaceIdentity(s[1..], p, r);
    }
  }

  /** A leading occurrence is replaced and the scan resumes right after it. */
  lemma ReplaceAtStart(b: string, p: string, r: string)
    requires |p| > 0
    ensures Replace(p + b, p, r) == r + Replace(b, p, r)
  {
    assert (p + b)[..|p|] == p;
    assert (p + b)[|p|..] == b;
  }

  /** Before the leftmost occurrence the scan finds no match and moves on by one. */
  lemma NoMatchBefore(a: string, b: string, p: string)
    requires |p| > 0 && a != []
    requires !Occurs(a + p[..|p| - 1], p)
    ensures |a + p + b| >= |p| && (a + p + b)[..|p|] != p
    ensures (a + p + b)[1..] == a[1..] + p + b
    ensures !Occurs(a[1..] + p[..|p| - 1], p)
  {
    var s := a + p + b;
    var t := a + p[..|p| - 1];
    assert !At(t, p, 0);
    assert s[..|p|] == t[..|p|];
    assert a == [a[0]] + a[1..];
    assert t == [a[0]] + (a[1..] + p[..|p| - 1]);
    assert s == [a[0]] + (a[1..] + p + b);
    if Occurs(a[1..] + p[..|p| - 1], p) {
      OccursInSuffix(t, p, 1);
    }
  }

  /** The leftmost occurrence is replaced and the scan resumes right after it. */
  lemma {:induction false} ReplaceSplits(a: string, b: string, p: string, r: string)
    requires |p| > 0
    requires !Occurs(a + p[..|p| - 1], p)
    ensures Replace(a + p + b, p, r) == a + r + Replace(b, p, r)
    decreases |a|
  {
    var s := a + p + b;
    if a == [] {
      assert s == p + b;
      ReplaceAtStart(b, p, r);
    } else {
      NoMatchBefore(a, b, p);
      ReplaceSplits(a[1..], b, p, r);
      assert [s[0]] + (a[1..] + r + Replace(b, p, r)) == a + r + Replace(b, p, r);
    }
  }

  /** Text free of the pattern's first character is copied as it is. */
  lemma {:induction false} ReplaceSkipsPrefix(a: string, b: string, p: string, r: string)
    requires |p| > 0
    requires p[0] !in a
    ensures Replace(a + b, p, r) == a + Replace(b, p, r)
    decreases |a|
  {
    var s := a + b;
    if a != [] {
      assert s[0] == a[0] && a[0] in a;
      if |s| < |p| {
        assert Replace(b, p, r) == b;
      } else {
        assert s[..|p|] != p;
        assert s[1..] == a[1..] + b;
        assert p[0] !in a[1..] by {
          assert forall c | c in a[1..] :: c in a;
        }
        ReplaceSkipsPrefix(a[1..], b, p, r);
        assert [a[0]] + a[1..] == a;
      }
    } else {
      assert s == b;
    }
  }

  /** The output agrees with the input up to the first character that belongs to `r`. */
  lemma {:induction false} PrefixUnchanged(t: string, p: string, r: string, k: nat)
    requires |p| > 0 && |r| > 0
    requires k <= |Replace(t, p, r)|
    requires forall j | 0 <= j < k :: Replace(t, p, r)[j] !in r
    ensures k <= |t| && Replace(t, p, r)[..k] == t[..k]
    decreases |t|
  {
    var out := Replace(t, p, r);
    if |t| < |p| {
    } else if t[..|p|] == p {
      assert out == r + Replace(t[|p|..], p, r);
      assert out[0] in r;
    } else if k > 0 {
      var rest := Replace(t[1..], p, r);
      assert out == [t[0]] + rest;
      forall j | 0 <= j < k - 1
        ensures rest[j] !in r
      {
        assert rest[j] == out[j + 1];
      }
      PrefixUnchanged(t[1..], p, r, k - 1);
      assert out[..k] == [t[0]] + rest[..k - 1];
      assert t[..k] == [t[0]] + t[1..][..k - 1];
    }
  }

  /** Replacing `p` by characters foreign to `p` leaves no occurrence of `p`. */
  lemma {:induction false} ReplaceRemoves(s: string, p: string, r: string)
    requires |p| > 0 && |r| > 0
    requires Disjoint(p, r)
    ensures !Occurs(Replace(s, p, r), p)
    decreases |s|
  {
    var out := Replace(s, p, r);
    if |s| < |p| {
    } else if s[..|p|] == p {
      var rest := Replace(s[|p|..], p, r);
      ReplaceRemoves(s[|p|..], p, r);
      assert out == r + rest;
      forall i | 0 <= i <= |out| - |p|
        ensures !At(out, p, i)
      {
        if i < |r| {
          assert out[i] == r[i] && r[i] in r;
          assert p[0] in p;
        } else {
          assert out[i..i + |p|] == rest[i - |r|..i - |r| + |p|];
          assert !At(rest, p, i - |r|);
        }
      }
    } else {
      var rest := Replace(s[1..], p, r);
      ReplaceRemoves(s[1..], p, r);
      assert out == [s[0]] + rest;
      forall i | 0 <= i <= |out| - |p|
        ensures !At(out, p, i)
      {
        if i == 0 {
          if At(out, p, 0) {
            StartPreserved(s, p, r, p);
          }
        } else {
          assert out[i..i + |p|] == rest[i - 1..i - 1 + |p|];
          assert !At(rest, p, i - 1);
        }
      }
    }
  }

  /** Replacing `p` by characters foreign to `q` creates no occurrence of `q`. */
  lemma {:induction false} ReplaceKeepsAbsent(s: string, p: string, r: string, q: string)
    requires |p| > 0 && |r| > 0 && |q| > 0
    requires Disjoint(q, r)
    requires !Occurs(s, q)
    ensures !Occurs(Replace(s, p, r), q)
    decreases |s|
  {
    var out := Replace(s, p, r);
    if |s| < |p| {
    } else if s[..|p|] == p {
      var rest := Replace(s[|p|..], p, r);
      if Occurs(s[|p|..], q) {
        OccursInSuffix(s, q, |p|);
      }
      ReplaceKeepsAbsent(s[|p|..], p, r, q);
      assert out == r + rest;
      forall i | 0 <= i <= |out| - |q|
        ensures !At(out, q, i)
      {
        if i < |r| {
          assert out[i] == r[i] && r[i] in r;
          assert q[0] in q;
        } else {
          assert out[i..i + |q|] == rest[i - |r|..i - |r| + |q|];
          assert !At(rest, q, i - |r|);
        }
      }
    } else {
      var rest := Replace(s[1..], p, r);
      if Occurs(s[1..], q) {
        OccursInSuffix(s, q, 1);
      }
      ReplaceKeepsAbsent(s[1..], p, r, q);
      assert out == [s[0]] + rest;
      forall i | 0 <= i <= |out| - |q|
        ensures !At(out, q, i)
      {
        if i == 0 {
          if At(out, q, 0) {
            StartPreserved(s, p, r, q);
          }
        } else {
          assert out[i..i + |q|] == rest[i - 1..i - 1 + |q|];
          assert !At(rest, q, i - 1);
        }
      }
    }
  }

  /** In a no-match step, a prefix of the output made of characters foreign to `r`
      is a prefix of the input. */
  lemma StartPreserved(s: string, p: string, r: string, q: string)
    requires |p| > 0 && |r| > 0 && |q| > 0 && |s| >= 1
    requires Disjoint(q, r)
    requires At([s[0]] + Replace(s[1..], p, r), q, 0)
    ensures At(s, q, 0)
  {
    var rest := Replace(s[1..], p, r);
    var out := [s[0]] + rest;
    assert out[..|q|] == q;
    forall j | 0 <= j < |q| - 1
      ensures rest[j] !in r
    {
      assert rest[j] == out[j + 1] == q[j + 1];
      assert q[j + 1] in q;
    }
    PrefixUnchanged(s[1..], p, r, |q| - 1);
    assert rest[..|q| - 1] == s[1..][..|q| - 1];
    calc {
      s[..|q|];
      [s[0]] + s[1..][..|q| - 1];
      [s[0]] + rest[..|q| - 1];
      out[..|q|];
    }
  }
}
