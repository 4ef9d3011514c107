/**
  The display order of device identifiers: ascending by canonical string,
  compared character by character.
 */
module UuidOrder {

  /** The length of the longest common prefix of `a` and `b`. */
  function CommonPrefix(a: string, b: string): (n: nat)
    ensures n <= |a| && n <= |b| && forall i | 0 <= i < n :: a[i] == b[i]
    ensures n == |a| || n == |b| || a[n] != b[n]
  {
    if |a| == 0 || |b| == 0 || a[0] != b[0] then 0 else 1 + CommonPrefix(a[1..], b[1..])
  }

  /** Lexicographic "strictly before" on strings. */
  predicate Less(a: string, b: string)
  {
    if |a| == 0 then |b| > 0
    else if |b| == 0 then false
    else a[0] < b[0] || (a[0] == b[0] && Less(a[1..], b[1..]))
  }

  /** `Less` is the order of the first difference, a proper prefix coming first. */
  lemma {:induction false} LessLexicographic(a: string, b: string)
    ensures var n := CommonPrefix(a, b); Less(a, b) <==> n < |b| && (n == |a| || a[n] < b[n])
  {
    if |a| > 0 && |b| > 0 && a[0] == b[0] {
      LessLexicographic(a[1..], b[1..]);
    }
  }

  lemma {:induction false} LessIrreflexive(a: string)
    ensures !Less(a, a)
  {
    if |a| > 0 {
      LessIrreflexive(a[1..]);
    }
  }

  lemma {:induction false} LessAsymmetric(a: string, b: string)
    requires Less(a, b)
    ensures !Less(b, a)
  {
    if |a| > 0 && |b| > 0 && a[0] == b[0] {
      LessAsymmetric(a[1..], b[1..]);
    }
  }

  lemma {:induction false} LessTransitive(a: string, b: string, c: string)
    requires Less(a, b) && Less(b, c)
    ensures Less(a, c)
  {
    if |a| > 0 && a[0] == b[0] && b[0] == c[0] {
      LessTransitive(a[1..], b[1..], c[1..]);
    }
  }

  lemma {:induction false} LessTotal(a: string, b: string)
    requires a != b
    ensures Less(a, b) || Less(b, a)
  {
    if |a| > 0 && |b| > 0 && a[0] == b[0] {
      assert a == [a[0]] + a[1..] && b == [b[0]] + b[1..];
      LessTotal(a[1..], b[1..]);
    }
  }

  /** Every element strictly before every later one (hence no duplicates). */
  ghost predicate Ascending(s: seq<string>)
  {
    forall i, j | 0 <= i < j < |s| :: Less(s[i], s[j])
  }

  /** `s` with `k` placed where the order puts it. */
  function Insert(s: seq<string>, k: string): (r: seq<string>)
    requires Ascending(s) && k !in s
    ensures Ascending(r)
    ensures |r| == |s| + 1
    ensures forall x :: x in r <==> x in s || x == k
  {
    if s == [] then [k]
    else if Less(k, s[0]) then
      assert forall j | 0 < j < |s| :: Less(k, s[j]) by {
        forall j | 0 < j < |s| ensures Less(k, s[j]) { LessTransitive(k, s[0], s[j]); }
      }
      [k] + s
    else
      LessTotal(k, s[0]);
      var rest := Insert(s[1..], k);
      assert forall x | x in rest :: Less(s[0], x) by {
        forall x | x in rest ensures Less(s[0], x) {
          if x != k {
            var j :| 0 <= j < |s[1..]| && s[1..][j] == x;
            assert s[j + 1] == x;
          }
        }
      }
      [s[0]] + rest
  }

  /** The keys of a map, sorted: the `uuids` view of the registry. */
  method SortKeys(keys: set<string>) returns (r: seq<string>)
    ensures Ascending(r)
    ensures |r| == |keys|
    ensures forall x :: x in r <==> x in keys
  {
    r := [];
    var rest := keys;
    while rest != {}
      invariant Ascending(r)
      invariant forall x :: x in r <==> x in keys && x !in rest
      invariant rest <= keys
      invariant |r| + |rest| == |keys|
      decreases rest
    {
      var k :| k in rest;
      r := Insert(r, k);
      rest := rest - {k};
    }
  }

  /** The head of an ascending sequence is before each of its other elements. */
  lemma HeadIsLeast(s: seq<string>, x: string)
    requires Ascending(s) && x in s && x != s[0]
    ensures Less(s[0], x)
  {
    var j :| 0 <= j < |s| && s[j] == x;
  }

  lemma HeadIn(s: seq<string>)
    ensures s != [] ==> s[0] in s
  {
  }

  /** Two ascending sequences with the same elements are the same sequence. */
  lemma {:induction false} AscendingUnique(s: seq<string>, t: seq<string>)
    requires Ascending(s) && Ascending(t)
    requires forall x :: x in s <==> x in t
    ensures s == t
  {
    if s == [] {
      if t != [] {
        HeadIn(t);
        assert false;
      }
    } else if t == [] {
      HeadIn(s);
      assert false;
    } else {
      assert s[0] in s && t[0] in t;
      if s[0] != t[0] {
        HeadIsLeast(s, t[0]);
        HeadIsLeast(t, s[0]);
        LessAsymmetric(s[0], t[0]);
        assert false;
      }
      forall x ensures x in s[1..] <==> x in t[1..] {
        if x in s[1..] {
          var i :| 1 <= i < |s| && s[i] == x;
          assert x in s && x in t;
          LessIrreflexive(x);
          var j :| 0 <= j < |t| && t[j] == x;
          assert t[1..][j - 1] == x;
        }
        if x in t[1..] {
          var i :| 1 <= i < |t| && t[i] == x;
          assert x in t && x in s;
          LessIrreflexive(x);
          var j :| 0 <= j < |s| && s[j] == x;
          assert s[1..][j - 1] == x;
        }
      }
      AscendingUnique(s[1..], t[1..]);
      assert s == [s[0]] + s[1..] && t == [t[0]] + t[1..];
    }
  }
}
