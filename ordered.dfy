/**
 * The order in which a Rust `BTreeMap<String, _>` is iterated: strings
 * compared lexicographically, character by character, a proper prefix coming
 * first. (Rust compares the UTF-8 bytes; UTF-8 preserves the order of code
 * points, so comparing characters gives the same order.)
 */
module Ordered {

  /** `a` sorts strictly before `b`. */
  predicate Below(a: string, b: string)
    decreases |a|
  {
    if a == [] then b != []
    else b != [] && (a[0] < b[0] || (a[0] == b[0] && Below(a[1..], b[1..])))
  }

  predicate AtMost(a: string, b: string) {
    a == b || Below(a, b)
  }

  lemma {:induction false} BelowIrreflexive(a: string)
    ensures !Below(a, a)
    decreases |a|
  {
    if a != [] {
      BelowIrreflexive(a[1..]);
    }
  }

  lemma {:induction false} BelowTransitive(a: string, b: string, c: string)
    requires Below(a, b) && Below(b, c)
    ensures Below(a, c)
    decreases |a|
  {
    if a != [] && a[0] == b[0] && b[0] == c[0] {
      BelowTransitive(a[1..], b[1..], c[1..]);
    }
  }

  lemma {:induction false} BelowTotal(a: string, b: string)
    ensures Below(a, b) || a == b || Below(b, a)
    decreases |a|
  {
    if a != [] && b != [] && a[0] == b[0] {
      BelowTotal(a[1..], b[1..]);
      if a[1..] == b[1..] {
        assert a == [a[0]] + a[1..] && b == [b[0]] + b[1..];
      }
    }
  }

  lemma BelowAsymmetric(a: string, b: string)
    requires Below(a, b)
    ensures !Below(b, a)
  {
    if Below(b, a) {
      BelowTransitive(a, b, a);
      BelowIrreflexive(a);
    }
  }

  /** Every element sorts strictly before every later one (keys of an ordered map). */
  predicate StrictlyAscending(s: seq<string>) {
    forall i, j :: 0 <= i < j < |s| ==> Below(s[i], s[j])
  }

  /** Every element sorts before or equal to every later one. */
  predicate Ascending(s: seq<string>) {
    forall i, j :: 0 <= i < j < |s| ==> AtMost(s[i], s[j])
  }

  lemma StrictlyAscendingDistinct(s: seq<string>, i: int, j: int)
    requires StrictlyAscending(s) && 0 <= i < |s| && 0 <= j < |s| && i != j
    ensures s[i] != s[j]
  {
    if i < j {
      BelowIrreflexive(s[i]);
    } else {
      BelowIrreflexive(s[j]);
    }
  }

  predicate IsLeast(m: string, s: set<string>) {
    m in s && forall x :: x in s ==> AtMost(m, x)
  }

  lemma {:induction false} LeastExists(s: set<string>)
    requires s != {}
    ensures exists m :: IsLeast(m, s)
    decreases |s|
  {
    var x :| x in s;
    var rest := s - {x};
    if rest == {} {
      assert s == {x};
      assert IsLeast(x, s);
    } else {
      LeastExists(rest);
      var m :| IsLeast(m, rest);
      BelowTotal(x, m);
      if Below(x, m) {
        forall y | y in s ensures AtMost(x, y) {
          if y != x {
            assert AtMost(m, y);
            if y != m { BelowTransitive(x, m, y); }
          }
        }
        assert IsLeast(x, s);
      } else {
        assert IsLeast(m, s);
      }
    }
  }

  lemma LeastUnique(a: string, b: string, s: set<string>)
    requires IsLeast(a, s) && IsLeast(b, s)
    ensures a == b
  {
    if a != b {
      assert Below(a, b) && Below(b, a);
      BelowAsymmetric(a, b);
    }
  }

  lemma BelowAfterLeast(m: string, s: set<string>, rest: seq<string>)
    requires IsLeast(m, s)
    requires forall x :: x in rest <==> x in s - {m}
    ensures forall j :: 0 <= j < |rest| ==> Below(m, rest[j])
  {
    forall j | 0 <= j < |rest| ensures Below(m, rest[j]) {
      assert rest[j] in rest;
      assert rest[j] in s && rest[j] != m;
    }
  }

  /** The keys of a string-keyed ordered map, in iteration order. */
  ghost function AscendingKeys(s: set<string>): (ks: seq<string>)
    ensures forall x :: x in ks <==> x in s
    ensures |ks| == |s|
    decreases |s|
  {
    if s == {} then []
    else
      LeastExists(s);
      var m :| IsLeast(m, s);
      [m] + AscendingKeys(s - {m})
  }

  /** The ordered enumeration is strictly ascending. */
  lemma {:induction false} AscendingKeysSorted(s: set<string>)
    ensures StrictlyAscending(AscendingKeys(s))
    decreases |s|
  {
    if s != {} {
      var ks := AscendingKeys(s);
      var m := ks[0];
      var rest := AscendingKeys(s - {m});
      assert ks == [m] + rest;
      AscendingKeysSorted(s - {m});
      BelowAfterLeast(m, s, rest);
    }
  }

  /** No element of a strictly ascending sequence occurs twice. */
  lemma DistinctAt(ks: seq<string>, i: int)
    requires StrictlyAscending(ks) && 0 <= i < |ks|
    ensures forall j :: 0 <= j < |ks| && j != i ==> ks[j] != ks[i]
  {
    forall j | 0 <= j < |ks| && j != i ensures ks[j] != ks[i] {
      StrictlyAscendingDistinct(ks, i, j);
    }
  }

  /** The ordered enumeration starts with the least key. */
  lemma AscendingKeysFirst(s: set<string>, k: string)
    requires IsLeast(k, s)
    ensures AscendingKeys(s) == [k] + AscendingKeys(s - {k})
  {
    var ks := AscendingKeys(s);
    AscendingKeysSorted(s);
    assert ks[0] in s;
    forall x | x in s ensures AtMost(ks[0], x) {
      var j :| 0 <= j < |ks| && ks[j] == x;
    }
    LeastUnique(ks[0], k, s);
  }

  lemma KeysStep(ks: seq<string>, rest: set<string>, k: string)
    requires IsLeast(k, rest)
    ensures ks + AscendingKeys(rest) == (ks + [k]) + AscendingKeys(rest - {k})
    ensures |rest - {k}| < |rest|
  {
    AscendingKeysFirst(rest, k);
  }

  /** Iterating a map's keys in order: repeatedly take the least remaining key. */
  method Keys<V>(m: map<string, V>) returns (ks: seq<string>)
    ensures ks == AscendingKeys(m.Keys)
  {
    ks := [];
    var rest := m.Keys;
    while rest != {}
      invariant ks + AscendingKeys(rest) == AscendingKeys(m.Keys)
      decreases |rest|
    {
      LeastExists(rest);
      var k :| k in rest && IsLeast(k, rest);
      KeysStep(ks, rest, k);
      ks, rest := ks + [k], rest - {k};
    }
  }
}
