/** Whole posting lists: with at most one elided amount on either side. */
module MatchingLaws {
  import opened Prelude
  import opened Amounts
  import opened Matching

  function Keyed(ps: seq<Posting>): (r: seq<Posting>)
    ensures forall p :: p in r ==> p.amount.Some?
  {
    if ps == [] then [] else (if ps[0].amount.Some? then [ps[0]] else []) + Keyed(ps[1..])
  }

  function Elided(ps: seq<Posting>): (r: seq<string>)
  {
    if ps == [] then [] else (if ps[0].amount.None? then [ps[0].account] else []) + Elided(ps[1..])
  }

  predicate MatchPostings(eq: Alike, a: seq<Posting>, b: seq<Posting>) {
    var ka, ea, kb, eb := Keyed(a), Elided(a), Keyed(b), Elided(b);
    && |a| == |b| && |ea| <= 1 && |eb| <= 1
    && if |ea| == |eb| then ea == eb && MultisetEqual(eq, ka, kb)
       else if |ea| == 1 then SubsetWithLeftover(eq, ka, kb, ea[0])
       else SubsetWithLeftover(eq, kb, ka, eb[0])
  }

  // ------------------------------------------------------------------ reflexive

  lemma {:induction false} SamePairs(eq: Alike, a: seq<Posting>)
    requires Equivalence(eq) && forall p :: p in a ==> p.amount.Some?
    ensures MultisetEqual(eq, a, a)
  {
    var f := seq(|a|, i => i);
    assert Bijection(eq, a, a, f);
    MultisetEqualIff(eq, a, a);
  }

  /** A list matches itself exactly when at most one of its amounts is elided. */
  lemma {:induction false} MatchesItselfIff(eq: Alike, a: seq<Posting>)
    requires Equivalence(eq)
    ensures MatchPostings(eq, a, a) <==> |Elided(a)| <= 1
  {
    SamePairs(eq, Keyed(a));
  }

  // ------------------------------------------------------------------ symmetric

  function Upto(n: nat): (r: set<nat>)
    ensures |r| == n && forall i: nat :: i in r <==> i < n
  {
    if n == 0 then {} else Upto(n - 1) + {n - 1}
  }

  function ToSet(f: seq<nat>): (r: set<nat>)
    ensures forall x :: x in r <==> x in f
  {
    if f == [] then {} else ToSet(f[1..]) + {f[0]}
  }

  lemma {:induction false} DistinctSize(f: seq<nat>)
    requires Distinct(f)
    ensures |ToSet(f)| == |f|
  {
    if f != [] {
      DistinctSize(f[1..]);
      assert f[0] !in f[1..];
    }
  }

  /** Distinct places, as many as there are, are all of them. */
  lemma {:induction false} Onto(f: seq<nat>, n: nat, j: nat)
    requires Distinct(f) && |f| == n && (forall i :: 0 <= i < |f| ==> f[i] < n) && j < n
    ensures j in f
  {
    if j !in f {
      DistinctSize(f);
      SubsetSize(ToSet(f), Upto(n) - {j});
    }
  }

  function PlaceOf(f: seq<nat>, j: nat): (i: nat)
    requires j in f
    ensures i < |f| && f[i] == j
  {
    if f[0] == j then 0 else 1 + PlaceOf(f[1..], j)
  }

  lemma {:induction false} Inverse(eq: Alike, a: seq<Posting>, b: seq<Posting>, f: seq<nat>) returns (g: seq<nat>)
    requires Equivalence(eq) && Bijection(eq, a, b, f)
    ensures Bijection(eq, b, a, g)
  {
    forall j: nat | j < |b| ensures j in f {
      Onto(f, |b|, j);
    }
    g := seq(|b|, j requires 0 <= j < |b| => PlaceOf(f, j));
  }

  lemma {:induction false} MultisetEqualIsSymmetric(eq: Alike, a: seq<Posting>, b: seq<Posting>)
    requires Equivalence(eq)
    ensures MultisetEqual(eq, a, b) == MultisetEqual(eq, b, a)
  {
    MultisetEqualIff(eq, a, b);
    MultisetEqualIff(eq, b, a);
    if f :| Bijection(eq, a, b, f) {
      var g := Inverse(eq, a, b, f);
    }
    if f :| Bijection(eq, b, a, f) {
      var g := Inverse(eq, b, a, f);
    }
  }

  /** It does not matter which list comes first. */
  lemma {:induction false} MatchingIsSymmetric(eq: Alike, a: seq<Posting>, b: seq<Posting>)
    requires Equivalence(eq)
    ensures MatchPostings(eq, a, b) == MatchPostings(eq, b, a)
  {
    MultisetEqualIsSymmetric(eq, Keyed(a), Keyed(b));
  }

  // ------------------------------------------------------------------ the order of the postings

  lemma {:induction false} SameLength<T>(a: seq<T>, b: seq<T>)
    requires multiset(a) == multiset(b)
    ensures |a| == |b|
  {
    assert |multiset(a)| == |a| && |multiset(b)| == |b|;
  }

  lemma {:induction false} WithoutOne<T>(b: seq<T>, k: nat)
    requires k < |b|
    ensures multiset(b[..k] + b[k + 1..]) == multiset(b) - multiset{b[k]}
  {
    assert b == b[..k] + [b[k]] + b[k + 1..];
  }

  /** Lists with the same elements are rearranged by some `f`. */
  lemma {:induction false} Rearranged<T>(a: seq<T>, b: seq<T>) returns (f: seq<nat>)
    requires multiset(a) == multiset(b)
    ensures |a| == |b| == |f| && Distinct(f) && forall i :: 0 <= i < |f| ==> f[i] < |b| && a[i] == b[f[i]]
  {
    SameLength(a, b);
    if a == [] {
      f := [];
    } else {
      assert a[0] in multiset(a) && a[0] in b;
      var k: nat :| k < |b| && b[k] == a[0];
      WithoutOne(a, 0);
      WithoutOne(b, k);
      assert a[..0] + a[1..] == a[1..];
      var g := Rearranged(a[1..], b[..k] + b[k + 1..]);
      f := Inserted(a, b, k, g);
    }
  }

  lemma {:induction false} Inserted<T>(a: seq<T>, b: seq<T>, k: nat, g: seq<nat>) returns (f: seq<nat>)
    requires |a| == |b| == |g| + 1 && k < |b| && b[k] == a[0] && Distinct(g)
    requires forall i :: 0 <= i < |g| ==> g[i] < |g| && a[1..][i] == (b[..k] + b[k + 1..])[g[i]]
    ensures |f| == |b| && Distinct(f) && forall i :: 0 <= i < |f| ==> f[i] < |b| && a[i] == b[f[i]]
  {
    var moved := seq(|g|, i requires 0 <= i < |g| => if g[i] < k then g[i] else g[i] + 1);
    f := [k] + moved;
    forall i | 0 <= i < |f| ensures f[i] < |b| && a[i] == b[f[i]] {
      if i > 0 {
        assert a[1..][i - 1] == (b[..k] + b[k + 1..])[g[i - 1]];
      }
    }
  }

  /** Pairing a rearranged list. */
  lemma {:induction false} PairsRearranged(eq: Alike, a: seq<Posting>, a': seq<Posting>, b: seq<Posting>, f: seq<nat>) returns (g: seq<nat>)
    requires multiset(a) == multiset(a') && Pairs(eq, a, b, Unused(|b|), f)
    ensures |a| == |a'| && Pairs(eq, a', b, Unused(|b|), g)
    ensures forall l :: l in g ==> l in f
  {
    var p := Rearranged(a', a);
    g := seq(|a'|, i requires 0 <= i < |a'| => f[p[i]]);
    forall i, j | 0 <= i < j < |g| ensures g[i] != g[j] {
      assert p[i] != p[j];
    }
  }

  lemma {:induction false} MultisetEqualRearranged(eq: Alike, a: seq<Posting>, a': seq<Posting>, b: seq<Posting>)
    requires Equivalence(eq) && multiset(a) == multiset(a') && MultisetEqual(eq, a, b)
    ensures MultisetEqual(eq, a', b)
  {
    MultisetEqualIff(eq, a, b);
    var f :| Bijection(eq, a, b, f);
    var g := PairsRearranged(eq, a, a', b, f);
    assert Bijection(eq, a', b, g);
    MultisetEqualIff(eq, a', b);
  }

  lemma {:induction false} LeftoverRearrangedSub(eq: Alike, sub: seq<Posting>, sub': seq<Posting>, super: seq<Posting>, account: string)
    requires Equivalence(eq) && multiset(sub) == multiset(sub') && SubsetWithLeftover(eq, sub, super, account)
    ensures SubsetWithLeftover(eq, sub', super, account)
  {
    SubsetWithLeftoverIff(eq, sub, super, account);
    var f, l: nat :| LeavesAccount(eq, sub, super, account, f, l);
    var g := PairsRearranged(eq, sub, sub', super, f);
    assert LeavesAccount(eq, sub', super, account, g, l);
    SubsetWithLeftoverIff(eq, sub', super, account);
  }

  lemma {:induction false} LeftoverRearrangedSuper(eq: Alike, sub: seq<Posting>, super: seq<Posting>, super': seq<Posting>, account: string)
    requires Equivalence(eq) && multiset(super) == multiset(super') && SubsetWithLeftover(eq, sub, super, account)
    ensures SubsetWithLeftover(eq, sub, super', account)
  {
    SubsetWithLeftoverIff(eq, sub, super, account);
    var f, l: nat :| LeavesAccount(eq, sub, super, account, f, l);
    var p := Rearranged(super, super');
    var g := seq(|f|, i requires 0 <= i < |f| => p[f[i]]);
    forall i, j | 0 <= i < j < |g| ensures g[i] != g[j] {
      assert f[i] != f[j];
    }
    forall i | 0 <= i < |g| ensures g[i] != p[l] {
      assert f[i] != l;
    }
    assert LeavesAccount(eq, sub, super', account, g, p[l]);
    SubsetWithLeftoverIff(eq, sub, super', account);
  }

  function ElidedPostings(ps: seq<Posting>): seq<Posting> {
    if ps == [] then [] else (if ps[0].amount.None? then [ps[0]] else []) + ElidedPostings(ps[1..])
  }

  lemma {:induction false} KeyedCount(ps: seq<Posting>, p: Posting)
    ensures multiset(Keyed(ps))[p] == if p.amount.Some? then multiset(ps)[p] else 0
  {
    if ps != [] {
      assert ps == [ps[0]] + ps[1..];
      KeyedCount(ps[1..], p);
    }
  }

  lemma {:induction false} ElidedCount(ps: seq<Posting>, p: Posting)
    ensures multiset(ElidedPostings(ps))[p] == if p.amount.None? then multiset(ps)[p] else 0
  {
    if ps != [] {
      assert ps == [ps[0]] + ps[1..];
      ElidedCount(ps[1..], p);
    }
  }

  lemma {:induction false} ElidedAccounts(ps: seq<Posting>)
    ensures |Elided(ps)| == |ElidedPostings(ps)|
    ensures forall i :: 0 <= i < |Elided(ps)| ==> Elided(ps)[i] == ElidedPostings(ps)[i].account
  {
    if ps != [] {
      ElidedAccounts(ps[1..]);
    }
  }

  lemma {:induction false} KeyedRearranged(a: seq<Posting>, a': seq<Posting>)
    requires multiset(a) == multiset(a')
    ensures multiset(Keyed(a)) == multiset(Keyed(a'))
  {
    forall p ensures multiset(Keyed(a))[p] == multiset(Keyed(a'))[p] {
      KeyedCount(a, p);
      KeyedCount(a', p);
    }
  }

  lemma {:induction false} SameElided(a: seq<Posting>, a': seq<Posting>)
    requires multiset(a) == multiset(a')
    ensures multiset(ElidedPostings(a)) == multiset(ElidedPostings(a'))
  {
    forall p ensures multiset(ElidedPostings(a))[p] == multiset(ElidedPostings(a'))[p] {
      ElidedCount(a, p);
      ElidedCount(a', p);
    }
  }

  lemma {:induction false} SameSingleton<T>(a: seq<T>, b: seq<T>)
    requires multiset(a) == multiset(b) && |a| == 1
    ensures a == b
  {
    SameLength(a, b);
    assert a[0] in multiset(b);
  }

  lemma {:induction false} ElidedRearranged(a: seq<Posting>, a': seq<Posting>)
    requires multiset(a) == multiset(a')
    ensures |Elided(a)| == |Elided(a')| && (|Elided(a)| <= 1 ==> Elided(a) == Elided(a'))
  {
    SameElided(a, a');
    SameLength(ElidedPostings(a), ElidedPostings(a'));
    ElidedAccounts(a);
    ElidedAccounts(a');
    if |ElidedPostings(a)| == 1 {
      SameSingleton(ElidedPostings(a), ElidedPostings(a'));
    }
  }

  lemma {:induction false} MatchingRearrangedOneWay(eq: Alike, a: seq<Posting>, a': seq<Posting>, b: seq<Posting>)
    requires Equivalence(eq) && multiset(a) == multiset(a') && MatchPostings(eq, a, b)
    ensures MatchPostings(eq, a', b)
  {
    SameLength(a, a');
    KeyedRearranged(a, a');
    ElidedRearranged(a, a');
    var ea, eb := Elided(a), Elided(b);
    if |ea| == |eb| {
      MultisetEqualRearranged(eq, Keyed(a), Keyed(a'), Keyed(b));
    } else if |ea| == 1 {
      LeftoverRearrangedSub(eq, Keyed(a), Keyed(a'), Keyed(b), ea[0]);
    } else {
      LeftoverRearrangedSuper(eq, Keyed(b), Keyed(a), Keyed(a'), eb[0]);
    }
  }

  /** The order of the postings does not matter on either side. */
  lemma {:induction false} MatchingIgnoresOrder(eq: Alike, a: seq<Posting>, a': seq<Posting>, b: seq<Posting>, b': seq<Posting>)
    requires Equivalence(eq) && multiset(a) == multiset(a') && multiset(b) == multiset(b')
    ensures MatchPostings(eq, a, b) == MatchPostings(eq, a', b')
  {
    if MatchPostings(eq, a, b) {
      MatchingRearrangedOneWay(eq, a, a', b);
      MatchingIsSymmetric(eq, a', b);
      MatchingRearrangedOneWay(eq, b, b', a');
      MatchingIsSymmetric(eq, b', a');
    }
    if MatchPostings(eq, a', b') {
      MatchingRearrangedOneWay(eq, a', a, b');
      MatchingIsSymmetric(eq, a, b');
      MatchingRearrangedOneWay(eq, b', b, a);
      MatchingIsSymmetric(eq, b, a);
    }
  }

  // ------------------------------------------------------------------ transitive or not

  lemma {:induction false} Composed(eq: Alike, a: seq<Posting>, b: seq<Posting>, c: seq<Posting>, f: seq<nat>, g: seq<nat>)
    returns (h: seq<nat>)
    requires Equivalence(eq) && Bijection(eq, a, b, f) && Bijection(eq, b, c, g)
    ensures Bijection(eq, a, c, h)
  {
    h := seq(|a|, i requires 0 <= i < |a| => g[f[i]]);
    forall i, j | 0 <= i < j < |h| ensures h[i] != h[j] {
      assert f[i] != f[j];
    }
    forall i | 0 <= i < |h| ensures eq(a[i], c[h[i]]) {
      assert eq(a[i], b[f[i]]) && eq(b[f[i]], c[g[f[i]]]);
    }
  }

  lemma {:induction false} MultisetEqualIsTransitive(eq: Alike, a: seq<Posting>, b: seq<Posting>, c: seq<Posting>)
    requires Equivalence(eq) && MultisetEqual(eq, a, b) && MultisetEqual(eq, b, c)
    ensures MultisetEqual(eq, a, c)
  {
    MultisetEqualIff(eq, a, b);
    MultisetEqualIff(eq, b, c);
    MultisetEqualIff(eq, a, c);
    var f :| Bijection(eq, a, b, f);
    var g :| Bijection(eq, b, c, g);
    var h := Composed(eq, a, b, c, f, g);
  }

  /** A one-to-one pairing followed by one that leaves a posting with the account is such a pairing. */
  lemma {:induction false} PairedThenLeft(eq: Alike, a: seq<Posting>, b: seq<Posting>, c: seq<Posting>, account: string)
    requires Equivalence(eq) && MultisetEqual(eq, a, b) && SubsetWithLeftover(eq, b, c, account)
    ensures SubsetWithLeftover(eq, a, c, account)
  {
    MultisetEqualIff(eq, a, b);
    SubsetWithLeftoverIff(eq, b, c, account);
    var f :| Bijection(eq, a, b, f);
    var g, l: nat :| LeavesAccount(eq, b, c, account, g, l);
    var h := Chained(eq, a, b, c, f, g);
    assert LeavesAccount(eq, a, c, account, h, l);
    SubsetWithLeftoverIff(eq, a, c, account);
  }

  /** And so is one that leaves a posting with the account followed by a one-to-one pairing. */
  lemma {:induction false} LeftThenPaired(eq: Alike, a: seq<Posting>, b: seq<Posting>, c: seq<Posting>, account: string)
    requires Equivalence(eq) && SubsetWithLeftover(eq, a, b, account) && MultisetEqual(eq, b, c)
    ensures SubsetWithLeftover(eq, a, c, account)
  {
    SubsetWithLeftoverIff(eq, a, b, account);
    MultisetEqualIff(eq, b, c);
    var f, l: nat :| LeavesAccount(eq, a, b, account, f, l);
    var g :| Bijection(eq, b, c, g);
    var h := Chained(eq, a, b, c, f, g);
    assert eq(b[l], c[g[l]]);
    assert LeavesAccount(eq, a, c, account, h, g[l]);
    SubsetWithLeftoverIff(eq, a, c, account);
  }

  lemma {:induction false} Chained(eq: Alike, a: seq<Posting>, b: seq<Posting>, c: seq<Posting>, f: seq<nat>, g: seq<nat>)
    returns (h: seq<nat>)
    requires Equivalence(eq) && Pairs(eq, a, b, Unused(|b|), f) && Pairs(eq, b, c, Unused(|c|), g)
    ensures Pairs(eq, a, c, Unused(|c|), h)
    ensures forall l :: 0 <= l < |b| && l !in f ==> g[l] !in h
    ensures forall x :: x in h ==> x in g
  {
    h := seq(|a|, i requires 0 <= i < |a| => g[f[i]]);
    forall i, j | 0 <= i < j < |h| ensures h[i] != h[j] {
      assert f[i] != f[j];
    }
    forall i | 0 <= i < |h| ensures eq(a[i], c[h[i]]) {
      assert eq(a[i], b[f[i]]) && eq(b[f[i]], c[g[f[i]]]);
    }
    forall l, i | 0 <= l < |b| && l !in f && 0 <= i < |h| ensures g[l] != h[i] {
      assert f[i] in f;
    }
  }

  lemma {:induction false} FromElidedToStated(eq: Alike, a: seq<Posting>, b: seq<Posting>, c: seq<Posting>)
    requires Equivalence(eq) && MatchPostings(eq, a, b) && MatchPostings(eq, b, c)
    requires |Elided(a)| == 1 && |Elided(c)| == 0
    ensures MatchPostings(eq, a, c)
  {
    if |Elided(b)| == 1 {
      PairedThenLeft(eq, Keyed(a), Keyed(b), Keyed(c), Elided(a)[0]);
    } else {
      LeftThenPaired(eq, Keyed(a), Keyed(b), Keyed(c), Elided(a)[0]);
    }
  }

  /** Matching is transitive unless the ends elide equally many amounts and the middle another number. */
  lemma {:induction false} MatchingIsTransitive(eq: Alike, a: seq<Posting>, b: seq<Posting>, c: seq<Posting>)
    requires Equivalence(eq) && MatchPostings(eq, a, b) && MatchPostings(eq, b, c)
    requires |Elided(a)| == |Elided(c)| ==> |Elided(a)| == |Elided(b)|
    ensures MatchPostings(eq, a, c)
  {
    if |Elided(a)| == |Elided(c)| {
      MultisetEqualIsTransitive(eq, Keyed(a), Keyed(b), Keyed(c));
    } else if |Elided(a)| == 1 {
      FromElidedToStated(eq, a, b, c);
    } else {
      MatchingIsSymmetric(eq, a, b);
      MatchingIsSymmetric(eq, b, c);
      FromElidedToStated(eq, c, b, a);
      MatchingIsSymmetric(eq, c, a);
    }
  }

  predicate Chains(eq: Alike, a: seq<Posting>, b: seq<Posting>, c: seq<Posting>) {
    MatchPostings(eq, a, b) && MatchPostings(eq, b, c) ==> MatchPostings(eq, a, c)
  }

  predicate Elide(a: seq<Posting>, b: seq<Posting>, c: seq<Posting>, x: nat, y: nat, z: nat) {
    |Elided(a)| == x && |Elided(b)| == y && |Elided(c)| == z
  }

  /** For which numbers of elided amounts exact matching is transitive on all lists. */
  lemma {:induction false} TransitiveIff(x: nat, y: nat, z: nat)
    requires x <= 1 && y <= 1 && z <= 1
    ensures (forall a, b, c :: Elide(a, b, c, x, y, z) ==> Chains(ExactEqual, a, b, c)) <==> !(x == z && x != y)
  {
    BothAreEquivalences();
    if x == z && x != y {
      var a, b, c;
      if y == 1 {
        a, b, c := ElidingIsNotTransitive();
      } else {
        a, b, c := StatingIsNotTransitive();
      }
      assert Elide(a, b, c, x, y, z) && !Chains(ExactEqual, a, b, c);
    } else {
      forall a, b, c | Elide(a, b, c, x, y, z) ensures Chains(ExactEqual, a, b, c) {
        if MatchPostings(ExactEqual, a, b) && MatchPostings(ExactEqual, b, c) {
          MatchingIsTransitive(ExactEqual, a, b, c);
        }
      }
    }
  }

  function Leg(account: string, number: real): Posting {
    Posting(account, 0, Some(Amount(number, "USD")), None, None, 0)
  }

  lemma {:induction false} OneLegLeft(x: Posting, y: Posting)
    requires x.amount.Some? && y.amount.Some?
    ensures SubsetWithLeftover(ExactEqual, [x], [x, y], y.account) && SubsetWithLeftover(ExactEqual, [y], [x, y], x.account)
  {
    BothAreEquivalences();
    assert Pairs(ExactEqual, [x], [x, y], Unused(2), [0]) && Pairs(ExactEqual, [y], [x, y], Unused(2), [1]);
    assert LeavesAccount(ExactEqual, [x], [x, y], y.account, [0], 1);
    assert LeavesAccount(ExactEqual, [y], [x, y], x.account, [1], 0);
    SubsetWithLeftoverIff(ExactEqual, [x], [x, y], y.account);
    SubsetWithLeftoverIff(ExactEqual, [y], [x, y], x.account);
  }

  lemma {:induction false} TwoLegs(x: Posting, y: Posting)
    requires x.amount.Some?
    ensures Keyed([x, y]) == [x] + if y.amount.Some? then [y] else []
    ensures Elided([x, y]) == if y.amount.Some? then [] else [y.account]
  {
    assert [x, y][1..] == [y] && [y][1..] == [];
    assert Keyed([y]) == if y.amount.Some? then [y] else [];
    assert Elided([y]) == if y.amount.Some? then [] else [y.account];
  }

  function Unstated(account: string): Posting {
    Posting(account, 0, None, None, None, 0)
  }

  /** An elided amount matches different stated ones, which do not match each other. */
  lemma {:induction false} ElidingIsNotTransitive() returns (a: seq<Posting>, b: seq<Posting>, c: seq<Posting>)
    ensures Elide(a, b, c, 0, 1, 0)
    ensures MatchPostings(ExactEqual, a, b) && MatchPostings(ExactEqual, b, c) && !MatchPostings(ExactEqual, a, c)
  {
    var first := Leg("A", 1.0);
    a, c := [first, Leg("B", 2.0)], [first, Leg("B", 3.0)];
    b := [first, Unstated("B")];
    TwoLegs(first, a[1]);
    TwoLegs(first, b[1]);
    TwoLegs(first, c[1]);
    assert Keyed(a) == a && Keyed(b) == [first] && Keyed(c) == c;
    OneLegLeft(first, a[1]);
    OneLegLeft(first, c[1]);
    NotPaired(a, c, 1);
  }

  lemma {:induction false} NotPaired(a: seq<Posting>, b: seq<Posting>, i: nat)
    requires i < |a| && forall j :: 0 <= j < |b| ==> !ExactEqual(a[i], b[j])
    ensures !MultisetEqual(ExactEqual, a, b)
  {
    BothAreEquivalences();
    AllHavePartners(ExactEqual, a, b);
  }

  /** Stated amounts match lists that elide one or the other of them, which do not match each other. */
  lemma {:induction false} StatingIsNotTransitive() returns (a: seq<Posting>, b: seq<Posting>, c: seq<Posting>)
    ensures Elide(a, b, c, 1, 0, 1)
    ensures MatchPostings(ExactEqual, a, b) && MatchPostings(ExactEqual, b, c) && !MatchPostings(ExactEqual, a, c)
  {
    var x, y := Leg("A", 1.0), Leg("A", 2.0);
    a, b, c := [x, Unstated("A")], [x, y], [y, Unstated("A")];
    TwoLegs(x, a[1]);
    TwoLegs(x, y);
    TwoLegs(y, c[1]);
    assert Keyed(a) == [x] && Keyed(b) == b && Keyed(c) == [y];
    OneLegLeft(x, y);
    NotPaired([x], [y], 0);
  }

  lemma {:induction false} AllHavePartners(eq: Alike, a: seq<Posting>, b: seq<Posting>)
    requires Equivalence(eq)
    ensures MultisetEqual(eq, a, b) ==> forall i :: 0 <= i < |a| ==> exists j :: 0 <= j < |b| && eq(a[i], b[j])
  {
    MultisetEqualIff(eq, a, b);
    if f :| Bijection(eq, a, b, f) {
      forall i | 0 <= i < |a| ensures exists j :: 0 <= j < |b| && eq(a[i], b[j]) {
        assert eq(a[i], b[f[i]]);
      }
    }
  }
}
