/**
 * Text comparison as the SQLite tables of the tracker see it: the BINARY
 * collation that `ORDER BY timestamp` uses, the ASCII-only case folding of
 * `LIKE`, the `LIKE` matcher itself, and the ascending enumeration of a
 * table's keys that an `ORDER BY` on the primary key produces.
 */
module Collation {

  /** BINARY collation: code-point lexicographic order, a proper prefix first. */
  predicate Less(a: string, b: string)
    decreases |a|
  {
    if a == [] then b != []
    else if b == [] then false
    else if a[0] != b[0] then a[0] < b[0]
    else Less(a[1..], b[1..])
  }

  lemma {:induction false} LessIrreflexive(a: string)
    ensures !Less(a, a)
  {
    if a != [] {
      LessIrreflexive(a[1..]);
    }
  }

  lemma {:induction false} LessTransitive(a: string, b: string, c: string)
    requires Less(a, b) && Less(b, c)
    ensures Less(a, c)
  {
    if a != [] && a[0] == b[0] && b[0] == c[0] {
      LessTransitive(a[1..], b[1..], c[1..]);
    }
  }

  lemma {:induction false} LessTotal(a: string, b: string)
    ensures a == b || Less(a, b) || Less(b, a)
  {
    if a != [] && b != [] && a[0] == b[0] {
      LessTotal(a[1..], b[1..]);
      if a[1..] == b[1..] {
        assert a == [a[0]] + a[1..] && b == [b[0]] + b[1..];
      }
    }
  }

  /** A shared prefix does not decide the order: the remainders do. */
  lemma {:induction false} LessCommonPrefix(p: string, a: string, b: string)
    ensures Less(p + a, p + b) <==> Less(a, b)
  {
    if p != [] {
      assert (p + a)[0] == p[0] == (p + b)[0];
      assert (p + a)[1..] == p[1..] + a;
      assert (p + b)[1..] == p[1..] + b;
      LessCommonPrefix(p[1..], a, b);
    } else {
      assert p + a == a && p + b == b;
    }
  }

  /** Two different strings of one length are ordered by themselves, whatever follows them. */
  lemma {:induction false} LessDecidedByHead(a: string, b: string, x: string, y: string)
    requires |a| == |b| && a != b
    ensures Less(a + x, b + y) <==> Less(a, b)
  {
    if a[0] == b[0] {
      assert a[1..] != b[1..];
      assert (a + x)[1..] == a[1..] + x;
      assert (b + y)[1..] == b[1..] + y;
      LessDecidedByHead(a[1..], b[1..], x, y);
    }
  }

  /** Strings of one length extended by one character each: the prefixes decide, then the last characters. */
  lemma {:induction false} LessAppendLast(a: string, b: string, c: char, d: char)
    requires |a| == |b|
    ensures Less(a + [c], b + [d]) <==> Less(a, b) || (a == b && c < d)
  {
    if a == [] {
      assert a + [c] == [c] && b + [d] == [d];
      assert [c][1..] == [] && [d][1..] == [];
    } else if a[0] != b[0] {
      assert a != b;
    } else {
      assert (a + [c])[1..] == a[1..] + [c];
      assert (b + [d])[1..] == b[1..] + [d];
      LessAppendLast(a[1..], b[1..], c, d);
      assert a == b <==> a[1..] == b[1..] by {
        assert a == [a[0]] + a[1..] && b == [b[0]] + b[1..];
      }
    }
  }

  /** SQLite folds only the ASCII letters when it compares under LIKE. */
  function Lower(c: char): (r: char)
    ensures 'A' <= c <= 'Z' ==> r as int == c as int + 32
    ensures !('A' <= c <= 'Z') ==> r == c
  {
    if 'A' <= c <= 'Z' then (c as int + 32) as char else c
  }

  /** `String.prototype.toLowerCase`, restricted to the ASCII range the route names use. */
  function LowerAll(s: string): (r: string)
    ensures |r| == |s|
    ensures forall i :: 0 <= i < |s| ==> r[i] == Lower(s[i])
  {
    seq(|s|, i requires 0 <= i < |s| => Lower(s[i]))
  }

  /** SQLite's `LIKE` without an ESCAPE clause: `%` matches any run of characters, `_` any one. */
  predicate Like(pattern: string, s: string)
    decreases |pattern| + |s|
  {
    if pattern == [] then s == []
    else if pattern[0] == '%' then Like(pattern[1..], s) || (s != [] && Like(pattern, s[1..]))
    else s != [] && (pattern[0] == '_' || Lower(pattern[0]) == Lower(s[0])) && Like(pattern[1..], s[1..])
  }

  /** A pattern with no wildcard character in it. */
  predicate Literal(p: string)
  {
    forall i :: 0 <= i < |p| ==> p[i] != '%' && p[i] != '_'
  }

  /** `p` is a prefix of `s` once both are case-folded. */
  predicate StartsWithIgnoringCase(p: string, s: string)
  {
    |p| <= |s| && forall i :: 0 <= i < |p| ==> Lower(p[i]) == Lower(s[i])
  }

  lemma {:induction false} LikeAnything(s: string)
    ensures Like("%", s)
  {
    if s != [] {
      LikeAnything(s[1..]);
    }
  }

  /** `LIKE 'p%'` with a literal `p` is a case-insensitive prefix test. */
  lemma {:induction false} LikePrefix(p: string, s: string)
    requires Literal(p)
    ensures Like(p + "%", s) <==> StartsWithIgnoringCase(p, s)
  {
    if p == [] {
      assert p + "%" == "%";
      LikeAnything(s);
    } else {
      assert (p + "%")[0] == p[0];
      assert (p + "%")[1..] == p[1..] + "%";
      if s != [] {
        LikePrefix(p[1..], s[1..]);
        assert StartsWithIgnoringCase(p, s) <==>
          Lower(p[0]) == Lower(s[0]) && StartsWithIgnoringCase(p[1..], s[1..]) by {
          if Lower(p[0]) == Lower(s[0]) && StartsWithIgnoringCase(p[1..], s[1..]) {
            forall i | 0 <= i < |p| ensures Lower(p[i]) == Lower(s[i]) {
              if i > 0 {
                assert p[i] == p[1..][i - 1] && s[i] == s[1..][i - 1];
              }
            }
          }
          if StartsWithIgnoringCase(p, s) {
            forall i | 0 <= i < |p| - 1 ensures Lower(p[1..][i]) == Lower(s[1..][i]) {
              assert p[1..][i] == p[i + 1] && s[1..][i] == s[i + 1];
            }
          }
        }
      }
    }
  }

  ghost predicate IsLeast(k: string, ks: set<string>)
  {
    k in ks && forall j :: j in ks && j != k ==> Less(k, j)
  }

  lemma {:induction false} LeastExists(ks: set<string>)
    requires ks != {}
    ensures exists k :: IsLeast(k, ks)
    decreases |ks|
  {
    var x :| x in ks;
    if ks == {x} {
      assert IsLeast(x, ks);
    } else {
      LeastExists(ks - {x});
      var m :| IsLeast(m, ks - {x});
      LessTotal(m, x);
      if Less(m, x) {
        assert IsLeast(m, ks);
      } else {
        forall j | j in ks && j != x
          ensures Less(x, j)
        {
          if j != m {
            LessTransitive(x, m, j);
          }
        }
        assert IsLeast(x, ks);
      }
    }
  }

  /** The least key followed by the others in ascending order is all of them in ascending order. */
  lemma PrependLeast(k: string, ks: set<string>, rest: seq<string>)
    requires IsLeast(k, ks)
    requires forall x :: x in rest <==> x in ks - {k}
    requires forall i, j :: 0 <= i < j < |rest| ==> Less(rest[i], rest[j])
    ensures forall x :: x in [k] + rest <==> x in ks
    ensures forall i, j :: 0 <= i < j < |[k] + rest| ==> Less(([k] + rest)[i], ([k] + rest)[j])
  {
    var r := [k] + rest;
    forall i, j | 0 <= i < j < |r|
      ensures Less(r[i], r[j])
    {
      assert r[j] == rest[j - 1] && rest[j - 1] in rest;
      if i > 0 {
        assert r[i] == rest[i - 1];
      }
    }
  }

  /** The keys of a table in the order `ORDER BY` on its primary key lists them. */
  ghost function Ascending(ks: set<string>): (r: seq<string>)
    ensures |r| == |ks|
    ensures forall k :: k in r <==> k in ks
    ensures forall i, j :: 0 <= i < j < |r| ==> Less(r[i], r[j])
    decreases |ks|
  {
    if ks == {} then []
    else
      LeastExists(ks);
      var k :| IsLeast(k, ks);
      var rest := Ascending(ks - {k});
      PrependLeast(k, ks, rest);
      [k] + rest
  }
}
