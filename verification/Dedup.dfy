/** The searches as the deduplication runs them, and the verdict on two directives. */
module Dedup {
  import opened Matching
  import opened MatchingLaws

  /** Gives every posting of `a` the first free posting of `b` that is like it. */
  method AssignFirst(eq: Alike, a: seq<Posting>, b: seq<Posting>, used: array<bool>) returns (ok: bool)
    requires used.Length == |b|
    modifies used
    ensures ok <==> Greedy(eq, a, b, old(used[..])).Some?
    ensures ok ==> used[..] == Greedy(eq, a, b, old(used[..])).value
  {
    ghost var start := used[..];
    var i := 0;
    while i < |a|
      invariant i <= |a|
      invariant Greedy(eq, a[i..], b, used[..]) == Greedy(eq, a, b, start)
    {
      assert a[i..][1..] == a[i + 1..];
      ghost var before := used[..];
      var matched := false;
      var j := 0;
      while j < |b| && !matched
        invariant j <= |b|
        invariant !matched ==> used[..] == before && FirstLike(eq, a[i], b, before, 0) == FirstLike(eq, a[i], b, before, j)
        invariant matched ==>
                    var k := FirstLike(eq, a[i], b, before, 0); k < |b| && used[..] == before[k := true]
      {
        if !used[j] && eq(a[i], b[j]) {
          used[j] := true;
          matched := true;
        }
        j := j + 1;
      }
      if !matched {
        return false;
      }
      i := i + 1;
    }
    return true;
  }

  method MultisetSearch(eq: Alike, a: seq<Posting>, b: seq<Posting>) returns (ok: bool)
    requires Equivalence(eq)
    ensures ok == MultisetEqual(eq, a, b)
    ensures ok <==> exists f :: Bijection(eq, a, b, f)
  {
    MultisetEqualIff(eq, a, b);
    if |a| != |b| {
      return false;
    }
    var used := new bool[|b|](i => false);
    assert used[..] == Unused(|b|);
    ok := AssignFirst(eq, a, b, used);
  }

  method LeftoverSearch(eq: Alike, sub: seq<Posting>, super: seq<Posting>, account: string) returns (ok: bool)
    requires Equivalence(eq)
    ensures ok == SubsetWithLeftover(eq, sub, super, account)
    ensures ok <==> exists f, l: nat :: LeavesAccount(eq, sub, super, account, f, l)
  {
    SubsetWithLeftoverIff(eq, sub, super, account);
    if |super| != |sub| + 1 {
      return false;
    }
    var used := new bool[|super|](i => false);
    assert used[..] == Unused(|super|);
    ok := AssignFirst(eq, sub, super, used);
    if !ok {
      return;
    }
    ghost var left := used[..];
    GreedyUses(eq, sub, super, Unused(|super|));
    AllFree(|super|);
    var leftover := -1;
    for j := 0 to |super|
      invariant used[..] == left && -1 <= leftover < |super|
      invariant leftover == -1 ==> FirstFree(left, 0) == FirstFree(left, j)
      invariant leftover != -1 ==> leftover < j && leftover == FirstFree(left, 0)
    {
      if !used[j] {
        if leftover != -1 {
          OneFree(left, leftover, j);
          return false;
        }
        leftover := j;
      }
    }
    ok := leftover != -1 && super[leftover].account == account;
  }

  method PartitionElided(ps: seq<Posting>) returns (keyed: seq<Posting>, elided: seq<string>)
    ensures keyed == Keyed(ps) && elided == Elided(ps)
  {
    keyed, elided := [], [];
    for i := 0 to |ps|
      invariant keyed + Keyed(ps[i..]) == Keyed(ps) && elided + Elided(ps[i..]) == Elided(ps)
    {
      assert ps[i..][1..] == ps[i + 1..];
      if ps[i].amount.None? {
        elided := elided + [ps[i].account];
      } else {
        keyed := keyed + [ps[i]];
      }
    }
  }

  method PostingsMatch(eq: Alike, a: seq<Posting>, b: seq<Posting>) returns (ok: bool)
    requires Equivalence(eq)
    ensures ok == MatchPostings(eq, a, b)
  {
    if |a| != |b| {
      return false;
    }
    var ka, ea := PartitionElided(a);
    var kb, eb := PartitionElided(b);
    if |ea| > 1 || |eb| > 1 {
      return false;
    }
    if |ea| == 0 && |eb| == 0 {
      ok := MultisetSearch(eq, ka, kb);
    } else if |ea| == 1 && |eb| == 1 {
      if ea[0] != eb[0] {
        return false;
      }
      ok := MultisetSearch(eq, ka, kb);
    } else if |ea| == 1 {
      ok := LeftoverSearch(eq, ka, kb, ea[0]);
    } else {
      ok := LeftoverSearch(eq, kb, ka, eb[0]);
    }
  }

  // ------------------------------------------------------------------ the verdict on two directives

  /** `fields` stands for the normalised fields an exact comparison looks at, `date` counts days. */
  datatype Directive =
    | Txn(date: int, fields: int, postings: seq<Posting>, ids: map<string, string>)
    | Other(fields: int, ids: map<string, string>)

  datatype Kind = MatchNone | MatchStructural | MatchExact | MatchId

  datatype IdVerdict = IdNone | IdEqual | IdConflict

  predicate Shared(a: Directive, b: Directive, key: string) {
    key in a.ids && key in b.ids
  }

  predicate Conflicting(a: Directive, b: Directive, keys: seq<string>) {
    exists k :: k in keys && Shared(a, b, k) && a.ids[k] != b.ids[k]
  }

  predicate Identified(a: Directive, b: Directive, keys: seq<string>) {
    exists k :: k in keys && Shared(a, b, k)
  }

  function IdVerdictOf(a: Directive, b: Directive, keys: seq<string>): IdVerdict {
    if Conflicting(a, b, keys) then IdConflict else if Identified(a, b, keys) then IdEqual else IdNone
  }

  method IdCompare(a: Directive, b: Directive, keys: seq<string>) returns (v: IdVerdict)
    ensures v == IdVerdictOf(a, b, keys)
  {
    v := IdNone;
    for i := 0 to |keys|
      invariant v == IdVerdictOf(a, b, keys[..i]) && v != IdConflict
    {
      var k := keys[i];
      OneMoreKey(a, b, keys, i);
      if k in a.ids && k in b.ids {
        if a.ids[k] == b.ids[k] {
          v := IdEqual;
        } else {
          return IdConflict;
        }
      }
    }
    assert keys[..|keys|] == keys;
  }

  lemma {:induction false} OneMoreKey(a: Directive, b: Directive, keys: seq<string>, i: nat)
    requires i < |keys|
    ensures Identified(a, b, keys[..i + 1]) <==> Identified(a, b, keys[..i]) || Shared(a, b, keys[i])
    ensures Conflicting(a, b, keys[..i + 1]) <==>
              Conflicting(a, b, keys[..i]) || (Shared(a, b, keys[i]) && a.ids[keys[i]] != b.ids[keys[i]])
    ensures Conflicting(a, b, keys[..i + 1]) ==> Conflicting(a, b, keys)
  {
    assert forall k :: k in keys[..i + 1] <==> k in keys[..i] || k == keys[i];
    assert forall k :: k in keys[..i + 1] ==> k in keys;
  }

  predicate ExactMatch(a: Directive, b: Directive) {
    a.fields == b.fields
    && if a.Txn? then b.Txn? && a.date == b.date && MatchPostings(ExactEqual, a.postings, b.postings) else b.Other?
  }

  predicate StructuralMatch(a: Directive, b: Directive, window: int) {
    && window > 0 && a.Txn? && b.Txn?
    && -window <= a.date - b.date <= window
    && MatchPostings(StructuralEqual, a.postings, b.postings)
  }

  function Equivalent(a: Directive, b: Directive, keys: seq<string>, window: int): Kind {
    match IdVerdictOf(a, b, keys)
    case IdConflict => MatchNone
    case IdEqual => MatchId
    case IdNone =>
      if ExactMatch(a, b) then MatchExact else if StructuralMatch(a, b, window) then MatchStructural else MatchNone
  }

  /** The verdict does not depend on which directive comes first. */
  lemma {:induction false} VerdictIsSymmetric(a: Directive, b: Directive, keys: seq<string>, window: int)
    ensures Equivalent(a, b, keys, window) == Equivalent(b, a, keys, window)
  {
    BothAreEquivalences();
    if a.Txn? && b.Txn? {
      MatchingIsSymmetric(ExactEqual, a.postings, b.postings);
      MatchingIsSymmetric(StructuralEqual, a.postings, b.postings);
    }
    assert Shared(a, b, "") == Shared(b, a, "");
    assert forall k :: Shared(a, b, k) == Shared(b, a, k);
  }

  /**
   A directive is its own duplicate exactly when it carries one of the id keys or, being
   a transaction, elides at most one amount.
   */
  lemma {:induction false} DuplicatesItselfIff(a: Directive, keys: seq<string>, window: int)
    ensures Equivalent(a, a, keys, window) != MatchNone <==>
              Identified(a, a, keys) || a.Other? || |Elided(a.postings)| <= 1
  {
    BothAreEquivalences();
    if a.Txn? {
      MatchesItselfIff(ExactEqual, a.postings);
      MatchesItselfIff(StructuralEqual, a.postings);
    }
  }
}
