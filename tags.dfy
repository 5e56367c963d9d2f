/**
 * The tag index of the live state: label -> coils carrying it. `IndexOf` is
 * how it is built (coils visited in a given order, each pushed once onto the
 * list of every label in its tag list, a list created on first use);
 * `Members` is an independent description of each list, and the lemmas below
 * show the two agree and what that means for the index.
 */
module Tags {
  import opened Ordered
  import opened Config

  /** `tags.entry(t).or_default()`: the list for `t`, or the empty one. */
  function Lookup(idx: map<string, seq<string>>, t: string): seq<string> {
    if t in idx then idx[t] else []
  }

  /** Push coil `n` onto the list of label `t`. */
  function Push(idx: map<string, seq<string>>, t: string, n: string): map<string, seq<string>> {
    idx[t := Lookup(idx, t) + [n]]
  }

  /** Push coil `n` onto the lists of the labels `ts`, in order. */
  function AddCoil(idx: map<string, seq<string>>, n: string, ts: seq<string>): map<string, seq<string>>
    decreases |ts|
  {
    if ts == [] then idx
    else Push(AddCoil(idx, n, ts[..|ts| - 1]), ts[|ts| - 1], n)
  }

  /** The index built by visiting the coils `names` in order. */
  function IndexOf(names: seq<string>, coils: map<string, CoilConfig>): map<string, seq<string>>
    requires forall n :: n in names ==> n in coils
    decreases |names|
  {
    if names == [] then map[]
    else
      var n := names[|names| - 1];
      AddCoil(IndexOf(names[..|names| - 1], coils), n, coils[n].tags)
  }

  /** The index of a configuration: its coils visited in ascending name order. */
  ghost function TagIndex(coils: map<string, CoilConfig>): map<string, seq<string>> {
    IndexOf(AscendingKeys(coils.Keys), coils)
  }

  /** The index of a configuration is the one built by visiting its coils in the order `names`. */
  lemma TagIndexOf(coils: map<string, CoilConfig>, names: seq<string>)
    requires names == AscendingKeys(coils.Keys)
    ensures forall n :: n in names ==> n in coils
    ensures TagIndex(coils) == IndexOf(names, coils)
  {
  }

  /** How many times label `t` occurs in the tag list `ts`. */
  function Count(ts: seq<string>, t: string): nat
    decreases |ts|
  {
    if ts == [] then 0
    else Count(ts[..|ts| - 1], t) + (if ts[|ts| - 1] == t then 1 else 0)
  }

  function Repeat(n: string, k: nat): seq<string>
    decreases k
  {
    if k == 0 then [] else Repeat(n, k - 1) + [n]
  }

  /** Reference description of one list: each coil of `names`, in order, once per occurrence of `t` in its tags. */
  function Members(names: seq<string>, coils: map<string, CoilConfig>, t: string): seq<string>
    requires forall n :: n in names ==> n in coils
    decreases |names|
  {
    if names == [] then []
    else
      var n := names[|names| - 1];
      Members(names[..|names| - 1], coils, t) + Repeat(n, Count(coils[n].tags, t))
  }

  lemma {:induction false} CountPositive(ts: seq<string>, t: string)
    ensures Count(ts, t) > 0 <==> t in ts
    decreases |ts|
  {
    if ts != [] {
      CountPositive(ts[..|ts| - 1], t);
      assert ts == ts[..|ts| - 1] + [ts[|ts| - 1]];
    }
  }

  lemma {:induction false} RepeatElements(n: string, k: nat)
    ensures |Repeat(n, k)| == k
    ensures forall x :: x in Repeat(n, k) ==> x == n
    ensures multiset(Repeat(n, k))[n] == k
    decreases k
  {
    if k > 0 {
      RepeatElements(n, k - 1);
    }
  }

  /** Pushing `n` under `s` extends the list of `s` by `n` and leaves every other list alone. */
  lemma LookupPush(idx: map<string, seq<string>>, s: string, n: string, t: string)
    ensures t in Push(idx, s, n) <==> t in idx || t == s
    ensures Lookup(Push(idx, s, n), t) == Lookup(idx, t) + (if s == t then [n] else [])
  {
  }

  /** Pushing one coil under its labels adds exactly those labels as keys. */
  lemma {:induction false} AddCoilKeys(idx: map<string, seq<string>>, n: string, ts: seq<string>, t: string)
    ensures t in AddCoil(idx, n, ts) <==> t in idx || t in ts
    decreases |ts|
  {
    if ts != [] {
      var init := ts[..|ts| - 1];
      var last := ts[|ts| - 1];
      AddCoilKeys(idx, n, init, t);
      LookupPush(AddCoil(idx, n, init), last, n, t);
      assert ts == init + [last];
    }
  }

  /** Pushing one coil under its labels extends the list of each label by one entry per occurrence. */
  lemma {:induction false} AddCoilAt(idx: map<string, seq<string>>, n: string, ts: seq<string>, t: string)
    ensures Lookup(AddCoil(idx, n, ts), t) == Lookup(idx, t) + Repeat(n, Count(ts, t))
    decreases |ts|
  {
    if ts != [] {
      var init := ts[..|ts| - 1];
      var last := ts[|ts| - 1];
      AddCoilAt(idx, n, init, t);
      LookupPush(AddCoil(idx, n, init), last, n, t);
      if last == t {
        assert Repeat(n, Count(ts, t)) == Repeat(n, Count(init, t)) + [n];
      }
    }
  }

  /** The built index equals the reference description, and a label is a key exactly when its list is non-empty. */
  lemma {:induction false} IndexIsMembers(names: seq<string>, coils: map<string, CoilConfig>, t: string)
    requires forall n :: n in names ==> n in coils
    ensures t in IndexOf(names, coils) <==> Members(names, coils, t) != []
    ensures Lookup(IndexOf(names, coils), t) == Members(names, coils, t)
    decreases |names|
  {
    if names != [] {
      var init := names[..|names| - 1];
      var n := names[|names| - 1];
      assert forall x :: x in init ==> x in names;
      IndexIsMembers(init, coils, t);
      AddCoilKeys(IndexOf(init, coils), n, coils[n].tags, t);
      AddCoilAt(IndexOf(init, coils), n, coils[n].tags, t);
      CountPositive(coils[n].tags, t);
      RepeatElements(n, Count(coils[n].tags, t));
    }
  }

  /** A coil is listed under `t` exactly when it is one of `names` and carries `t`. */
  lemma {:induction false} MembersContain(names: seq<string>, coils: map<string, CoilConfig>, t: string, c: string)
    requires forall n :: n in names ==> n in coils
    ensures c in Members(names, coils, t) <==> c in names && t in coils[c].tags
    decreases |names|
  {
    if names != [] {
      var init := names[..|names| - 1];
      var n := names[|names| - 1];
      assert forall x :: x in init ==> x in names;
      assert names == init + [n];
      MembersContain(init, coils, t, c);
      CountPositive(coils[n].tags, t);
      RepeatElements(n, Count(coils[n].tags, t));
    }
  }

  /** A coil of `names` (all distinct) is listed under `t` once per occurrence of `t` in its tags. */
  lemma {:induction false} MembersMultiplicity(names: seq<string>, coils: map<string, CoilConfig>, t: string, c: string)
    requires forall n :: n in names ==> n in coils
    requires forall i, j :: 0 <= i < j < |names| ==> names[i] != names[j]
    ensures multiset(Members(names, coils, t))[c] == if c in names then Count(coils[c].tags, t) else 0
    decreases |names|
  {
    if names != [] {
      var init := names[..|names| - 1];
      var n := names[|names| - 1];
      assert forall x :: x in init ==> x in names;
      assert names == init + [n];
      MembersMultiplicity(init, coils, t, c);
      RepeatElements(n, Count(coils[n].tags, t));
      if c != n {
        assert c !in Repeat(n, Count(coils[n].tags, t));
      } else {
        assert c !in init;
      }
    }
  }

  /** Appending copies of a name that follows every element keeps a list ascending. */
  lemma AscendingThenRepeat(front: seq<string>, n: string, k: nat)
    requires Ascending(front)
    requires forall x :: x in front ==> Below(x, n)
    ensures Ascending(front + Repeat(n, k))
  {
    var back := Repeat(n, k);
    RepeatElements(n, k);
    var all := front + back;
    forall i, j | 0 <= i < j < |all| ensures AtMost(all[i], all[j]) {
      if j < |front| {
        assert all[i] == front[i] && all[j] == front[j];
        assert AtMost(front[i], front[j]);
      } else if i >= |front| {
        assert all[i] == back[i - |front|] && all[j] == back[j - |front|];
        assert back[i - |front|] in back && back[j - |front|] in back;
      } else {
        assert all[i] == front[i] && all[i] in front;
        assert all[j] == back[j - |front|] && all[j] in back;
      }
    }
  }

  /** Visiting coils in ascending name order yields lists in ascending name order. */
  lemma {:induction false} MembersAscending(names: seq<string>, coils: map<string, CoilConfig>, t: string)
    requires forall n :: n in names ==> n in coils
    requires StrictlyAscending(names)
    ensures Ascending(Members(names, coils, t))
    decreases |names|
  {
    if names != [] {
      var init := names[..|names| - 1];
      var n := names[|names| - 1];
      assert forall x :: x in init ==> x in names;
      MembersAscending(init, coils, t);
      var front := Members(init, coils, t);
      forall x | x in front ensures Below(x, n) {
        MembersContain(init, coils, t, x);
        var i :| 0 <= i < |init| && init[i] == x;
      }
      AscendingThenRepeat(front, n, Count(coils[n].tags, t));
    }
  }

  /**
   * The tag index of a configuration is exact: a label is a key exactly when
   * some coil carries it, its list is non-empty, holds exactly the coils that
   * carry it (each once per occurrence in that coil's tag list), and is in
   * ascending coil-name order.
   */
  lemma TagIndexExact(coils: map<string, CoilConfig>, t: string, c: string)
    ensures t in TagIndex(coils) <==> exists n :: n in coils && t in coils[n].tags
    ensures t in TagIndex(coils) ==> TagIndex(coils)[t] != [] && Ascending(TagIndex(coils)[t])
    ensures c in Lookup(TagIndex(coils), t) <==> c in coils && t in coils[c].tags
    ensures multiset(Lookup(TagIndex(coils), t))[c] == if c in coils then Count(coils[c].tags, t) else 0
  {
    var names := AscendingKeys(coils.Keys);
    AscendingKeysSorted(coils.Keys);
    IndexIsMembers(names, coils, t);
    MembersContain(names, coils, t, c);
    MembersAscending(names, coils, t);
    forall i, j | 0 <= i < j < |names| ensures names[i] != names[j] {
      StrictlyAscendingDistinct(names, i, j);
    }
    MembersMultiplicity(names, coils, t, c);
    if t in TagIndex(coils) {
      var m := Members(names, coils, t);
      assert m[0] in m;
      MembersContain(names, coils, t, m[0]);
    }
    if n :| n in coils && t in coils[n].tags {
      MembersContain(names, coils, t, n);
    }
  }
}
