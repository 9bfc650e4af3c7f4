/**
 * The sort of the enumerated effects by subgroup name.
 *
 * The window calls `List.Sort` with a comparison of `subGroupName`s. That
 * sort is unstable, so the order of effects whose names tie is not fixed by
 * the program. `Sort` below is one admissible result (an insertion sort);
 * everything the rest of the model relies on is its contract: the result is
 * sorted by subgroup name and is a permutation of the input. The lemma
 * `SortedPermutationsAgree` shows that this contract pins the displayed
 * order down up to ties, whichever sort produced it.
 */
module EffectSort {
  import opened Collation
  import opened Broker

  /** Every earlier effect's subgroup name sorts no later than every later one's. */
  ghost predicate SortedBySubGroup(leq: Leq, effects: seq<EffectKeyNamePair>) {
    forall i, j :: 0 <= i < j < |effects| ==> leq(effects[i].subGroupName, effects[j].subGroupName)
  }

  /** Putting in front of a sorted sequence an effect that sorts no later than
      any of its entries keeps it sorted. */
  lemma SortedPrepend(leq: Leq, y: EffectKeyNamePair, rest: seq<EffectKeyNamePair>)
    requires SortedBySubGroup(leq, rest)
    requires forall e :: e in rest ==> leq(y.subGroupName, e.subGroupName)
    ensures SortedBySubGroup(leq, [y] + rest)
  {
    var r := [y] + rest;
    forall i, j | 0 <= i < j < |r|
      ensures leq(r[i].subGroupName, r[j].subGroupName)
    {
      if i == 0 {
        assert r[j] == rest[j - 1];
        assert r[j] in rest;
      } else {
        assert r[i] == rest[i - 1] && r[j] == rest[j - 1];
      }
    }
  }

  /** Inserts `x` into the sorted `ys` in front of the first entry it does not follow. */
  function Insert(leq: Leq, x: EffectKeyNamePair, ys: seq<EffectKeyNamePair>): (r: seq<EffectKeyNamePair>)
    requires TotalPreorder(leq)
    requires SortedBySubGroup(leq, ys)
    ensures multiset(r) == multiset(ys) + multiset{x}
    ensures SortedBySubGroup(leq, r)
    decreases |ys|
  {
    if ys == [] || leq(x.subGroupName, ys[0].subGroupName) then
      SortedPrepend(leq, x, ys);
      [x] + ys
    else
      InsertAfterHead(leq, x, ys);
      [ys[0]] + Insert(leq, x, ys[1..])
  }

  /** The inductive step of `Insert`: when `x` does not go first, the head of
      `ys` may be put in front of the insertion into the tail. */
  lemma InsertAfterHead(leq: Leq, x: EffectKeyNamePair, ys: seq<EffectKeyNamePair>)
    requires TotalPreorder(leq)
    requires SortedBySubGroup(leq, ys)
    requires ys != [] && !leq(x.subGroupName, ys[0].subGroupName)
    ensures SortedBySubGroup(leq, ys[1..])
    ensures SortedBySubGroup(leq, [ys[0]] + Insert(leq, x, ys[1..]))
    ensures multiset([ys[0]] + Insert(leq, x, ys[1..])) == multiset(ys) + multiset{x}
    decreases |ys|, 0
  {
    assert ys == [ys[0]] + ys[1..];
    var tail := ys[1..];
    assert SortedBySubGroup(leq, tail) by {
      forall i, j | 0 <= i < j < |tail|
        ensures leq(tail[i].subGroupName, tail[j].subGroupName)
      {
        assert tail[i] == ys[i + 1] && tail[j] == ys[j + 1];
      }
    }
    var rest := Insert(leq, x, tail);
    forall e | e in rest
      ensures leq(ys[0].subGroupName, e.subGroupName)
    {
      assert e in multiset(rest);
      if e != x {
        assert e in multiset(tail);
        var k :| 0 <= k < |tail| && tail[k] == e;
        assert ys[k + 1] == e;
      }
    }
    SortedPrepend(leq, ys[0], rest);
  }

  /** The enumerated effects ordered by subgroup name. */
  function Sort(leq: Leq, effects: seq<EffectKeyNamePair>): (r: seq<EffectKeyNamePair>)
    requires TotalPreorder(leq)
    ensures multiset(r) == multiset(effects)
    ensures SortedBySubGroup(leq, r)
  {
    if effects == [] then
      []
    else
      assert effects == [effects[0]] + effects[1..];
      Insert(leq, effects[0], Sort(leq, effects[1..]))
  }

  /** Dropping one entry of a sorted sequence leaves it sorted. */
  lemma SortedRemove(leq: Leq, b: seq<EffectKeyNamePair>, j: nat)
    requires SortedBySubGroup(leq, b)
    requires j < |b|
    ensures SortedBySubGroup(leq, b[..j] + b[j + 1..])
  {
    var c := b[..j] + b[j + 1..];
    forall p, q | 0 <= p < q < |c|
      ensures leq(c[p].subGroupName, c[q].subGroupName)
    {
      var p' := if p < j then p else p + 1;
      var q' := if q < j then q else q + 1;
      assert c[p] == b[p'] && c[q] == b[q'];
    }
  }

  /** The tail of a sorted sequence is sorted. */
  lemma SortedTail(leq: Leq, a: seq<EffectKeyNamePair>)
    requires SortedBySubGroup(leq, a) && a != []
    ensures SortedBySubGroup(leq, a[1..])
  {
    var a' := a[1..];
    forall p, q | 0 <= p < q < |a'|
      ensures leq(a'[p].subGroupName, a'[q].subGroupName)
    {
      assert a'[p] == a[p + 1] && a'[q] == a[q + 1];
    }
  }

  /** In a sorted `b` whose first name sorts no earlier than `x`'s, every
      entry up to an occurrence of `x` ties with `x`. */
  lemma TiesUpTo(leq: Leq, x: EffectKeyNamePair, b: seq<EffectKeyNamePair>, j: nat)
    requires TotalPreorder(leq)
    requires SortedBySubGroup(leq, b)
    requires j < |b| && b[j] == x
    requires leq(x.subGroupName, b[0].subGroupName)
    ensures forall m :: 0 <= m <= j ==> Tie(leq, b[m].subGroupName, x.subGroupName)
  {
    forall m | 0 <= m <= j
      ensures Tie(leq, b[m].subGroupName, x.subGroupName)
    {
      if m != 0 {
        assert leq(b[0].subGroupName, b[m].subGroupName);
      }
      if m != j {
        assert leq(b[m].subGroupName, b[j].subGroupName);
      }
    }
  }

  /** Ties chain: a name tying with two names makes those two tie. */
  lemma TieThrough(leq: Leq, p: string, q: string, r: string)
    requires TotalPreorder(leq)
    requires Tie(leq, p, q) && Tie(leq, q, r)
    ensures Tie(leq, p, r)
  {
    assert leq(p, q) && leq(q, r);
    assert leq(r, q) && leq(q, p);
  }

  /** Removing the entry at `j` removes one occurrence of it from the multiset. */
  lemma RemoveAtMultiset(b: seq<EffectKeyNamePair>, j: nat)
    requires j < |b|
    ensures multiset(b[..j] + b[j + 1..]) == multiset(b) - multiset{b[j]}
  {
    assert b == b[..j] + [b[j]] + b[j + 1..];
  }

  /** The step of `SortedPermutationsAgree`: agreement of the tails, shifted
      around the removed position `j`, gives agreement of the whole. */
  lemma ShiftedAgreement(leq: Leq, a: seq<EffectKeyNamePair>, b: seq<EffectKeyNamePair>, j: nat)
    requires TotalPreorder(leq)
    requires |a| == |b| && j < |b| && b[j] == a[0]
    requires forall m :: 0 <= m <= j ==> Tie(leq, b[m].subGroupName, a[0].subGroupName)
    requires forall i :: 0 <= i < |a| - 1 ==>
      Tie(leq, a[1..][i].subGroupName, (b[..j] + b[j + 1..])[i].subGroupName)
    ensures forall i :: 0 <= i < |a| ==> Tie(leq, a[i].subGroupName, b[i].subGroupName)
  {
    var a', b' := a[1..], b[..j] + b[j + 1..];
    forall i | 0 <= i < |a|
      ensures Tie(leq, a[i].subGroupName, b[i].subGroupName)
    {
      if i == 0 {
        assert Tie(leq, b[0].subGroupName, a[0].subGroupName);
      } else if i - 1 < j {
        assert a'[i - 1] == a[i] && b'[i - 1] == b[i - 1];
        TieThrough(leq, a[i].subGroupName, b[i - 1].subGroupName, a[0].subGroupName);
        TieThrough(leq, a[i].subGroupName, a[0].subGroupName, b[i].subGroupName);
      } else {
        assert a'[i - 1] == a[i] && b'[i - 1] == b[i];
      }
    }
  }

  /** Some occurrence in `b` of the first entry of a permutation `a` of it;
      removing both leaves permutations of each other. */
  lemma LocateFirst(a: seq<EffectKeyNamePair>, b: seq<EffectKeyNamePair>) returns (j: nat)
    requires multiset(a) == multiset(b) && a != []
    ensures j < |b| && b[j] == a[0]
    ensures multiset(a[1..]) == multiset(b[..j] + b[j + 1..])
  {
    assert a[0] in multiset(b);
    j :| 0 <= j < |b| && b[j] == a[0];
    RemoveAtMultiset(b, j);
    assert a == [a[0]] + a[1..];
    assert multiset(a) == multiset{a[0]} + multiset(a[1..]);
  }

  /** The first entries of two sorted permutations of each other tie. */
  lemma FirstsNoLater(leq: Leq, a: seq<EffectKeyNamePair>, b: seq<EffectKeyNamePair>)
    requires TotalPreorder(leq)
    requires SortedBySubGroup(leq, a)
    requires multiset(a) == multiset(b) && b != []
    ensures leq(a[0].subGroupName, b[0].subGroupName)
  {
    assert b[0] in multiset(a);
    var k :| 0 <= k < |a| && a[k] == b[0];
    if k != 0 {
      assert leq(a[0].subGroupName, a[k].subGroupName);
    }
  }

  /**
   * Any two sorted permutations of the same effects show, position by
   * position, subgroup names that tie under the collation. So, although
   * `List.Sort` is unstable, the subgroup list a player sees is fixed up to
   * the order of names the culture compares as equal.
   */
  lemma {:induction false} SortedPermutationsAgree(leq: Leq, a: seq<EffectKeyNamePair>, b: seq<EffectKeyNamePair>)
    requires TotalPreorder(leq)
    requires SortedBySubGroup(leq, a) && SortedBySubGroup(leq, b)
    requires multiset(a) == multiset(b)
    ensures |a| == |b|
    ensures forall i :: 0 <= i < |a| ==> Tie(leq, a[i].subGroupName, b[i].subGroupName)
    decreases |a|
  {
    assert |a| == |multiset(a)| == |multiset(b)| == |b|;
    if a != [] {
      var j := LocateFirst(a, b);
      FirstsNoLater(leq, a, b);
      TiesUpTo(leq, a[0], b, j);
      SortedRemove(leq, b, j);
      SortedTail(leq, a);
      SortedPermutationsAgree(leq, a[1..], b[..j] + b[j + 1..]);
      ShiftedAgreement(leq, a, b, j);
    }
  }

  /** Sorting a list that is already sorted by subgroup name changes the
      shown names at most by swapping names that tie. */
  lemma SortIdempotentUpToTies(leq: Leq, effects: seq<EffectKeyNamePair>)
    requires TotalPreorder(leq)
    requires SortedBySubGroup(leq, effects)
    ensures |Sort(leq, effects)| == |effects|
    ensures forall i :: 0 <= i < |effects| ==>
      Tie(leq, Sort(leq, effects)[i].subGroupName, effects[i].subGroupName)
  {
    SortedPermutationsAgree(leq, Sort(leq, effects), effects);
  }
}
