/**
 Matching the postings of two transactions. The greedy search is right because what it
 compares by is an equivalence: it succeeds exactly when some pairing of the postings
 exists at all.
 */
module Matching {
  import opened Prelude
  import opened Amounts
  import opened Costs

  /** `meta` stands for what is no part of a posting's identity. */
  datatype Posting = Posting(account: string, flag: int, amount: Option<Amount>, cost: Option<CostHolder>, price: Option<Price>, meta: int)

  type Alike = (Posting, Posting) -> bool

  /** Postings with amounts: everything but the metadata agrees. */
  predicate ExactEqual(x: Posting, y: Posting) {
    && x.account == y.account && x.flag == y.flag
    && x.amount.Some? && y.amount.Some?
    && x.amount.value.currency == y.amount.value.currency && x.amount.value.number == y.amount.value.number
    && x.cost == y.cost && x.price == y.price
  }

  /** The two legs of a transfer count as the same. */
  predicate StructuralEqual(x: Posting, y: Posting) {
    && x.account == y.account
    && x.amount.Some? && y.amount.Some?
    && x.amount.value.currency == y.amount.value.currency
    && Abs(x.amount.value.number) == Abs(y.amount.value.number)
  }

  /** On postings with amounts an equivalence that keeps to the account. */
  ghost predicate Equivalence(eq: Alike) {
    && (forall x: Posting :: x.amount.Some? ==> eq(x, x))
    && (forall x, y :: eq(x, y) ==> eq(y, x) && x.account == y.account)
    && (forall x, y, z :: eq(x, y) && eq(y, z) ==> eq(x, z))
  }

  lemma {:induction false} BothAreEquivalences()
    ensures Equivalence(ExactEqual) && Equivalence(StructuralEqual)
  {
  }

  ghost predicate Distinct(f: seq<nat>) {
    forall i, j :: 0 <= i < j < |f| ==> f[i] != f[j]
  }

  /** `f` pairs every posting of `a` with a posting of `b` that is free, none of them twice. */
  ghost predicate Pairs(eq: Alike, a: seq<Posting>, b: seq<Posting>, used: seq<bool>, f: seq<nat>)
    requires |used| == |b|
  {
    && |f| == |a| && Distinct(f)
    && forall i :: 0 <= i < |f| ==> f[i] < |b| && !used[f[i]] && eq(a[i], b[f[i]])
  }

  // ------------------------------------------------------------------ the greedy search

  /** The first free posting of `b` from `j` on that is like `x`, or the end. */
  function FirstLike(eq: Alike, x: Posting, b: seq<Posting>, used: seq<bool>, j: nat): (k: nat)
    requires |used| == |b| && j <= |b|
    ensures j <= k <= |b| && (k < |b| ==> !used[k] && eq(x, b[k]))
    ensures forall i :: j <= i < k ==> used[i] || !eq(x, b[i])
    decreases |b| - j
  {
    if j == |b| || (!used[j] && eq(x, b[j])) then j else FirstLike(eq, x, b, used, j + 1)
  }

  /** What is used after every posting of `a` took the first it could, or nothing if one found none. */
  function Greedy(eq: Alike, a: seq<Posting>, b: seq<Posting>, used: seq<bool>): (r: Option<seq<bool>>)
    requires |used| == |b|
    ensures r.Some? ==> |r.value| == |b|
  {
    if a == [] then Some(used)
    else
      var k := FirstLike(eq, a[0], b, used, 0);
      if k == |b| then None else Greedy(eq, a[1..], b, used[k := true])
  }

  /** A free place that no posting is paired with. */
  predicate Spare(used: seq<bool>, f: seq<nat>, l: nat) {
    l < |used| && !used[l] && l !in f
  }

  /** When the search succeeds it has found a pairing, and what it leaves free is what the pairing spares. */
  lemma {:induction false} GreedyPairs(eq: Alike, a: seq<Posting>, b: seq<Posting>, used: seq<bool>) returns (f: seq<nat>)
    requires |used| == |b| && Greedy(eq, a, b, used).Some?
    ensures Pairs(eq, a, b, used, f)
    ensures forall l: nat :: Spare(used, f, l) <==> l < |b| && !Greedy(eq, a, b, used).value[l]
  {
    if a == [] {
      f := [];
    } else {
      var k := FirstLike(eq, a[0], b, used, 0);
      var g := GreedyPairs(eq, a[1..], b, used[k := true]);
      f := [k] + g;
      forall l: nat ensures Spare(used, f, l) <==> l < |b| && !Greedy(eq, a, b, used).value[l] {
        assert Spare(used[k := true], g, l) <==> l < |b| && !Greedy(eq, a[1..], b, used[k := true]).value[l];
      }
    }
  }

  /** Making the first posting take place `k` disturbs nothing: who was paired with `k` takes over the place given up. */
  function Exchanged(f: seq<nat>, k: nat): (g: seq<nat>)
    requires |f| > 0
    ensures |g| == |f| - 1
  {
    seq(|f| - 1, i requires 0 <= i < |f| - 1 => if f[i + 1] == k then f[0] else f[i + 1])
  }

  lemma {:induction false} ExchangedPairs(eq: Alike, a: seq<Posting>, b: seq<Posting>, used: seq<bool>, f: seq<nat>, k: nat)
    requires Equivalence(eq) && |used| == |b| && |a| > 0 && Pairs(eq, a, b, used, f)
    requires k < |b| && !used[k] && eq(a[0], b[k])
    ensures Pairs(eq, a[1..], b, used[k := true], Exchanged(f, k))
  {
    var g := Exchanged(f, k);
    forall i | 0 <= i < |g| ensures g[i] < |b| && !used[k := true][g[i]] && eq(a[1..][i], b[g[i]]) {
      assert eq(a[0], b[f[0]]) && eq(a[i + 1], b[f[i + 1]]);
      if f[i + 1] == k {
        assert eq(b[k], a[0]);
        assert eq(a[i + 1], a[0]);
      }
    }
  }

  /** Where a pairing exists the search succeeds; what it leaves free is like what the pairing spares. */
  lemma {:induction false} PairedIsFound(eq: Alike, a: seq<Posting>, b: seq<Posting>, used: seq<bool>, f: seq<nat>)
    requires Equivalence(eq) && |used| == |b| && Pairs(eq, a, b, used, f)
    ensures Greedy(eq, a, b, used).Some?
  {
    if a != [] {
      var k := FirstLike(eq, a[0], b, used, 0);
      assert f[0] < |b| && !used[f[0]] && eq(a[0], b[f[0]]);
      ExchangedPairs(eq, a, b, used, f, k);
      PairedIsFound(eq, a[1..], b, used[k := true], Exchanged(f, k));
    }
  }

  lemma {:induction false} SpareIsAlike(eq: Alike, a: seq<Posting>, b: seq<Posting>, used: seq<bool>, f: seq<nat>, l: nat) returns (m: nat)
    requires Equivalence(eq) && |used| == |b| && Pairs(eq, a, b, used, f) && Spare(used, f, l)
    ensures Greedy(eq, a, b, used).Some?
    ensures m < |b| && !Greedy(eq, a, b, used).value[m] && b[m].account == b[l].account
  {
    PairedIsFound(eq, a, b, used, f);
    if a == [] {
      m := l;
    } else {
      var k := FirstLike(eq, a[0], b, used, 0);
      assert f[0] < |b| && !used[f[0]] && eq(a[0], b[f[0]]);
      ExchangedPairs(eq, a, b, used, f, k);
      if k == l {
        // the first posting takes the spare place and leaves its own, which is like it
        m := SpareIsAlike(eq, a[1..], b, used[k := true], Exchanged(f, k), f[0]);
      } else {
        m := SpareIsAlike(eq, a[1..], b, used[k := true], Exchanged(f, k), l);
      }
    }
  }

  // ------------------------------------------------------------------ how much is left

  function Free(used: seq<bool>): nat {
    if used == [] then 0 else (if used[0] then 0 else 1) + Free(used[1..])
  }

  lemma {:induction false} UsingOne(used: seq<bool>, k: nat)
    requires k < |used| && !used[k]
    ensures Free(used[k := true]) == Free(used) - 1
  {
    if k == 0 {
      assert used[0 := true][1..] == used[1..];
    } else {
      assert used[k := true][1..] == used[1..][k - 1 := true];
      UsingOne(used[1..], k - 1);
    }
  }

  lemma {:induction false} GreedyUses(eq: Alike, a: seq<Posting>, b: seq<Posting>, used: seq<bool>)
    requires |used| == |b| && Greedy(eq, a, b, used).Some?
    ensures Free(Greedy(eq, a, b, used).value) + |a| == Free(used)
  {
    if a != [] {
      var k := FirstLike(eq, a[0], b, used, 0);
      UsingOne(used, k);
      GreedyUses(eq, a[1..], b, used[k := true]);
    }
  }

  lemma {:induction false} OneFree(used: seq<bool>, l: nat, m: nat)
    requires Free(used) <= 1 && l < |used| && m < |used| && !used[l] && !used[m]
    ensures l == m
  {
    if l != m {
      UsingOne(used, l);
      UsingOne(used[l := true], m);
    }
  }

  function Unused(n: nat): (r: seq<bool>)
    ensures |r| == n && forall i :: 0 <= i < n ==> !r[i]
  {
    seq(n, i => false)
  }

  lemma {:induction false} AllFree(n: nat)
    ensures Free(Unused(n)) == n
  {
    if n > 0 {
      assert Unused(n)[1..] == Unused(n - 1);
      AllFree(n - 1);
    }
  }

  // ------------------------------------------------------------------ the two searches

  function MultisetEqual(eq: Alike, a: seq<Posting>, b: seq<Posting>): bool {
    |a| == |b| && Greedy(eq, a, b, Unused(|b|)).Some?
  }

  function FirstFree(used: seq<bool>, j: nat): (k: nat)
    requires j <= |used|
    ensures j <= k <= |used| && (k < |used| ==> !used[k]) && forall i :: j <= i < k ==> used[i]
    decreases |used| - j
  {
    if j == |used| || !used[j] then j else FirstFree(used, j + 1)
  }

  predicate SubsetWithLeftover(eq: Alike, sub: seq<Posting>, super: seq<Posting>, account: string) {
    && |super| == |sub| + 1
    && var left := Greedy(eq, sub, super, Unused(|super|));
       left.Some? && var l := FirstFree(left.value, 0); l < |super| && super[l].account == account
  }

  /** A one-to-one pairing of all postings of both sides. */
  ghost predicate Bijection(eq: Alike, a: seq<Posting>, b: seq<Posting>, f: seq<nat>) {
    |a| == |b| && Pairs(eq, a, b, Unused(|b|), f)
  }

  /** The search for equal multisets succeeds exactly when a one-to-one pairing exists. */
  lemma {:induction false} MultisetEqualIff(eq: Alike, a: seq<Posting>, b: seq<Posting>)
    requires Equivalence(eq)
    ensures MultisetEqual(eq, a, b) <==> exists f :: Bijection(eq, a, b, f)
  {
    if MultisetEqual(eq, a, b) {
      var f := GreedyPairs(eq, a, b, Unused(|b|));
      assert Bijection(eq, a, b, f);
    }
    if f :| Bijection(eq, a, b, f) {
      PairedIsFound(eq, a, b, Unused(|b|), f);
    }
  }

  /** A pairing of all of `sub` that leaves one posting of `super`, which has the account. */
  ghost predicate LeavesAccount(eq: Alike, sub: seq<Posting>, super: seq<Posting>, account: string, f: seq<nat>, l: nat) {
    && |super| == |sub| + 1 && Pairs(eq, sub, super, Unused(|super|), f)
    && l < |super| && l !in f && super[l].account == account
  }

  /**
   The search with a leftover succeeds exactly when some pairing leaves a posting with
   the account: the answer does not depend on which postings the search chose.
   */
  lemma {:induction false} SubsetWithLeftoverIff(eq: Alike, sub: seq<Posting>, super: seq<Posting>, account: string)
    requires Equivalence(eq)
    ensures SubsetWithLeftover(eq, sub, super, account) <==> exists f, l: nat :: LeavesAccount(eq, sub, super, account, f, l)
  {
    var none := Unused(|super|);
    if SubsetWithLeftover(eq, sub, super, account) {
      var f := GreedyPairs(eq, sub, super, none);
      var l := FirstFree(Greedy(eq, sub, super, none).value, 0);
      assert Spare(none, f, l);
      assert LeavesAccount(eq, sub, super, account, f, l);
    }
    if f, l: nat :| LeavesAccount(eq, sub, super, account, f, l) {
      var m := SpareIsAlike(eq, sub, super, none, f, l);
      var left := Greedy(eq, sub, super, none).value;
      GreedyUses(eq, sub, super, none);
      AllFree(|super|);
      OneFree(left, m, FirstFree(left, 0));
    }
  }
}
