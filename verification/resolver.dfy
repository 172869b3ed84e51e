/**
 * The action graph resolver: a round-based topological sort. Each round
 * appends, in their current order, the remaining actions whose dependencies
 * are all names of actions already placed; a round where none is ready
 * appends the whole remainder instead.
 */
module Resolver {
  import opened Scenario

  /** One round's partition of `s` into ready and blocked actions, each in order. */
  function Split(s: seq<Action>, placed: seq<Action>): (r: (seq<Action>, seq<Action>))
    ensures |r.0| + |r.1| == |s|
    ensures forall a :: a in r.0 ==> DepsMet(a, placed)
    ensures forall a :: a in r.1 ==> !DepsMet(a, placed)
    decreases |s|
  {
    if s == [] then ([], [])
    else
      var init := Split(s[..|s| - 1], placed);
      var a := s[|s| - 1];
      assert s == s[..|s| - 1] + [a];
      if DepsMet(a, placed) then (init.0 + [a], init.1) else (init.0, init.1 + [a])
  }

  /** A round loses no action and duplicates none. */
  lemma {:induction false} SplitIsPermutation(s: seq<Action>, placed: seq<Action>)
    ensures multiset(Split(s, placed).0) + multiset(Split(s, placed).1) == multiset(s)
  {
    if s != [] {
      SplitIsPermutation(s[..|s| - 1], placed);
      assert s == s[..|s| - 1] + [s[|s| - 1]];
    }
  }

  lemma SplitSnoc(s: seq<Action>, x: Action, placed: seq<Action>)
    ensures Split(s + [x], placed) ==
            if DepsMet(x, placed) then (Split(s, placed).0 + [x], Split(s, placed).1)
            else (Split(s, placed).0, Split(s, placed).1 + [x])
  {
    assert (s + [x])[..|s|] == s;
  }

  /** The order produced from `remaining` once `placed` has been emitted. */
  function OrderFrom(remaining: seq<Action>, placed: seq<Action>): seq<Action>
    decreases |remaining|
  {
    if remaining == [] then []
    else
      var split := Split(remaining, placed);
      if split.0 == [] then remaining
      else split.0 + OrderFrom(split.1, placed + split.0)
  }

  function TopologicalOrder(actions: seq<Action>): seq<Action>
  {
    OrderFrom(actions, [])
  }

  method TopologicalSort(actions: seq<Action>) returns (sorted: seq<Action>)
    ensures sorted == TopologicalOrder(actions)
    ensures multiset(sorted) == multiset(actions)
  {
    sorted := [];
    var remaining := actions;
    while remaining != []
      invariant sorted + OrderFrom(remaining, sorted) == TopologicalOrder(actions)
      decreases |remaining|
    {
      var ready, blocked := SplitRound(remaining, sorted);
      if ready == [] {
        // cycle or dangling name: everything left goes out in its current order
        ready, blocked := remaining, [];
      }
      OrderStep(remaining, sorted, ready, blocked);
      ghost var rest := OrderFrom(blocked, sorted + ready);
      assert sorted + (ready + rest) == (sorted + ready) + rest;
      sorted := sorted + ready;
      remaining := blocked;
    }
    TopologicalOrderIsPermutation(actions);
  }

  /** A round emits `ready` and leaves `blocked`, which is shorter than what the round started from. */
  lemma OrderStep(remaining: seq<Action>, placed: seq<Action>, ready: seq<Action>, blocked: seq<Action>)
    requires remaining != []
    requires if Split(remaining, placed).0 == [] then ready == remaining && blocked == []
             else (ready, blocked) == Split(remaining, placed)
    ensures OrderFrom(remaining, placed) == ready + OrderFrom(blocked, placed + ready)
    ensures |blocked| < |remaining|
  {
    if Split(remaining, placed).0 == [] {
      assert OrderFrom(blocked, placed + ready) == [];
      assert ready + [] == ready;
    }
  }

  /** One round: the actions whose dependencies are all placed, and the rest, each in input order. */
  method SplitRound(remaining: seq<Action>, placed: seq<Action>) returns (ready: seq<Action>, blocked: seq<Action>)
    ensures (ready, blocked) == Split(remaining, placed)
  {
    ready, blocked := [], [];
    for i := 0 to |remaining|
      invariant (ready, blocked) == Split(remaining[..i], placed)
    {
      assert remaining[..i + 1][..i] == remaining[..i];
      if DepsMet(remaining[i], placed) {
        ready := ready + [remaining[i]];
      } else {
        blocked := blocked + [remaining[i]];
      }
    }
    assert remaining[..|remaining|] == remaining;
  }

  // ---------------------------------------------------------------------
  // Permutation
  // ---------------------------------------------------------------------

  lemma {:induction false} OrderFromIsPermutation(remaining: seq<Action>, placed: seq<Action>)
    ensures multiset(OrderFrom(remaining, placed)) == multiset(remaining)
    decreases |remaining|
  {
    if remaining != [] {
      var split := Split(remaining, placed);
      if split.0 != [] {
        OrderFromIsPermutation(split.1, placed + split.0);
        SplitIsPermutation(remaining, placed);
      }
    }
  }

  /** The sort returns its input rearranged: every action exactly as often as it was given. */
  lemma TopologicalOrderIsPermutation(actions: seq<Action>)
    ensures |TopologicalOrder(actions)| == |actions|
    ensures multiset(TopologicalOrder(actions)) == multiset(actions)
  {
    OrderFromIsPermutation(actions, []);
    assert |multiset(TopologicalOrder(actions))| == |multiset(actions)|;
  }

  /** Each of the first `k` actions of `out` has its dependencies among `placed` and the actions before it. */
  ghost predicate ResolvedPrefix(placed: seq<Action>, out: seq<Action>, k: nat)
  {
    k <= |out| && forall i :: 0 <= i < k ==> DepsMet(out[i], placed + out[..i])
  }

  /** No action of `out` from position `k` on has its dependencies among `placed` and the first `k`. */
  ghost predicate StuckSuffix(placed: seq<Action>, out: seq<Action>, k: nat)
  {
    k <= |out| && forall i :: k <= i < |out| ==> !DepsMet(out[i], placed + out[..k])
  }

  /** Placed-first prefix property is preserved when a ready round is followed by a resolved rest. */
  lemma AppendResolved(placed: seq<Action>, ready: seq<Action>, rest: seq<Action>, k': nat)
    requires forall a :: a in ready ==> DepsMet(a, placed)
    requires k' <= |rest|
    requires forall j :: 0 <= j < k' ==> DepsMet(rest[j], (placed + ready) + rest[..j])
    ensures ResolvedPrefix(placed, ready + rest, |ready| + k')
  {
    var out := ready + rest;
    forall i | 0 <= i < |ready| + k'
      ensures DepsMet(out[i], placed + out[..i])
    {
      if i < |ready| {
        assert out[i] in ready;
        DepsMetGrows(out[i], placed, out[..i]);
      } else {
        var j := i - |ready|;
        assert out[i] == rest[j];
        assert placed + out[..i] == (placed + ready) + rest[..j];
      }
    }
  }

  // ---------------------------------------------------------------------
  // Shape: a resolved prefix, then the stuck remainder
  // ---------------------------------------------------------------------

  /** A stuck round: every remaining action is blocked by what is already placed. */
  lemma StuckRound(remaining: seq<Action>, placed: seq<Action>)
    requires remaining != [] && Split(remaining, placed).0 == []
    ensures forall i :: 0 <= i < |remaining| ==> !DepsMet(remaining[i], placed)
  {
    var split := Split(remaining, placed);
    SplitIsPermutation(remaining, placed);
    forall i | 0 <= i < |remaining|
      ensures !DepsMet(remaining[i], placed)
    {
      assert remaining[i] in multiset(remaining);
      assert remaining[i] in multiset(split.1);
    }
  }

  lemma {:induction false} OrderFromShape(remaining: seq<Action>, placed: seq<Action>) returns (k: nat)
    ensures ResolvedPrefix(placed, OrderFrom(remaining, placed), k)
    ensures StuckSuffix(placed, OrderFrom(remaining, placed), k)
    decreases |remaining|
  {
    var out := OrderFrom(remaining, placed);
    if remaining == [] {
      k := 0;
    } else {
      var split := Split(remaining, placed);
      if split.0 == [] {
        k := 0;
        StuckRound(remaining, placed);
        assert out == remaining;
        assert placed + out[..0] == placed;
      } else {
        var ready := split.0;
        var rest := OrderFrom(split.1, placed + ready);
        var k' := OrderFromShape(split.1, placed + ready);
        k := |ready| + k';
        assert out == ready + rest;
        assert forall j :: 0 <= j < k' ==> DepsMet(rest[j], (placed + ready) + rest[..j]);
        AppendResolved(placed, ready, rest, k');
        StuckTail(placed, ready, rest, k');
      }
    }
  }

  lemma StuckTail(placed: seq<Action>, ready: seq<Action>, rest: seq<Action>, k': nat)
    requires k' <= |rest|
    requires forall j :: k' <= j < |rest| ==> !DepsMet(rest[j], (placed + ready) + rest[..k'])
    ensures StuckSuffix(placed, ready + rest, |ready| + k')
  {
    var out := ready + rest;
    assert placed + out[..|ready| + k'] == (placed + ready) + rest[..k'];
    forall i | |ready| + k' <= i < |out|
      ensures !DepsMet(out[i], placed + out[..|ready| + k'])
    {
      assert out[i] == rest[i - |ready|];
    }
  }

  /**
   * The sorted order is a prefix in which every action follows all of its
   * dependencies, then the remainder that could not be resolved, none of whose
   * actions has its dependencies met by that prefix.
   */
  lemma OrderShape(actions: seq<Action>) returns (k: nat)
    ensures k <= |TopologicalOrder(actions)|
    ensures forall i :: 0 <= i < k ==> DepsMet(TopologicalOrder(actions)[i], TopologicalOrder(actions)[..i])
    ensures forall i :: k <= i < |TopologicalOrder(actions)| ==>
              !DepsMet(TopologicalOrder(actions)[i], TopologicalOrder(actions)[..k])
  {
    k := OrderFromShape(actions, []);
    var order := TopologicalOrder(actions);
    forall i | 0 <= i <= |order|
      ensures [] + order[..i] == order[..i]
    {
    }
  }

  // ---------------------------------------------------------------------
  // Acyclic, closed graphs are fully resolved
  // ---------------------------------------------------------------------

  /** Every dependency names some action of the plan. */
  ghost predicate Closed(actions: seq<Action>)
  {
    forall a, d :: a in actions && d in a.dependencies ==> d in Names(actions)
  }

  /** `rank` witnesses acyclicity: a dependency always ranks below its dependent. */
  ghost predicate Ranked(actions: seq<Action>, rank: string -> nat)
  {
    forall a, d :: a in actions && d in a.dependencies ==> rank(d) < rank(a.name)
  }

  lemma {:induction false} MinimalRank(s: seq<Action>, rank: string -> nat) returns (m: Action)
    requires s != []
    ensures m in s
    ensures forall b :: b in s ==> rank(m.name) <= rank(b.name)
  {
    if |s| == 1 {
      m := s[0];
    } else {
      var m' := MinimalRank(s[1..], rank);
      m := if rank(s[0].name) <= rank(m'.name) then s[0] else m';
      forall b | b in s
        ensures rank(m.name) <= rank(b.name)
      {
        if b != s[0] {
          assert b in s[1..];
        }
      }
    }
  }

  /** In a closed acyclic plan some remaining action is always ready. */
  lemma ReadyExists(actions: seq<Action>, remaining: seq<Action>, placed: seq<Action>, rank: string -> nat)
    requires Closed(actions) && Ranked(actions, rank)
    requires remaining != []
    requires forall b :: b in remaining ==> b in actions
    requires forall b :: b in actions ==> b in placed || b in remaining
    ensures Split(remaining, placed).0 != []
  {
    var m := MinimalRank(remaining, rank);
    forall d | d in m.dependencies
      ensures d in Names(placed)
    {
      assert d in Names(actions);
      var j :| 0 <= j < |actions| && Names(actions)[j] == d;
      var b := actions[j];
      assert b !in remaining;
      var p :| 0 <= p < |placed| && placed[p] == b;
      assert Names(placed)[p] == d;
    }
    assert DepsMet(m, placed);
    var split := Split(remaining, placed);
    SplitIsPermutation(remaining, placed);
    assert m in multiset(split.0) + multiset(split.1);
    assert m in split.0;
  }

  /** After a round, every action is still either placed or remaining. */
  lemma RoundKeepsCover(actions: seq<Action>, remaining: seq<Action>, placed: seq<Action>)
    requires forall b :: b in remaining ==> b in actions
    requires forall b :: b in actions ==> b in placed || b in remaining
    ensures var split := Split(remaining, placed);
            (forall b :: b in split.1 ==> b in actions) &&
            (forall b :: b in actions ==> b in placed + split.0 || b in split.1)
  {
    var split := Split(remaining, placed);
    SplitIsPermutation(remaining, placed);
    forall b | b in split.1
      ensures b in actions
    {
      assert b in multiset(remaining);
    }
    forall b | b in actions
      ensures b in placed + split.0 || b in split.1
    {
      if b in remaining {
        assert b in multiset(split.0) + multiset(split.1);
      }
    }
  }

  lemma {:induction false} OrderFromResolved(actions: seq<Action>, remaining: seq<Action>, placed: seq<Action>, rank: string -> nat)
    requires Closed(actions) && Ranked(actions, rank)
    requires forall b :: b in remaining ==> b in actions
    requires forall b :: b in actions ==> b in placed || b in remaining
    ensures ResolvedPrefix(placed, OrderFrom(remaining, placed), |OrderFrom(remaining, placed)|)
    decreases |remaining|
  {
    if remaining != [] {
      ReadyExists(actions, remaining, placed, rank);
      var split := Split(remaining, placed);
      var ready := split.0;
      RoundKeepsCover(actions, remaining, placed);
      OrderFromResolved(actions, split.1, placed + ready, rank);
      var rest := OrderFrom(split.1, placed + ready);
      assert OrderFrom(remaining, placed) == ready + rest;
      assert forall j :: 0 <= j < |rest| ==> DepsMet(rest[j], (placed + ready) + rest[..j]);
      AppendResolved(placed, ready, rest, |rest|);
    }
  }

  /**
   * When every dependency names an action of the plan and the graph is
   * acyclic (some rank puts each dependency below its dependent), every
   * action appears after all of its dependencies.
   */
  lemma DependenciesPrecede(actions: seq<Action>, rank: string -> nat)
    requires Closed(actions) && Ranked(actions, rank)
    ensures forall i :: 0 <= i < |TopologicalOrder(actions)| ==>
              DepsMet(TopologicalOrder(actions)[i], TopologicalOrder(actions)[..i])
  {
    OrderFromResolved(actions, actions, [], rank);
    var order := TopologicalOrder(actions);
    forall i | 0 <= i < |order|
      ensures DepsMet(order[i], order[..i])
    {
      assert DepsMet(order[i], [] + order[..i]);
      assert [] + order[..i] == order[..i];
    }
  }

  // ---------------------------------------------------------------------
  // The sort as written in the source
  // ---------------------------------------------------------------------

  /** `l` without its first element equal to `x` (Python's list.remove). */
  function RemoveFirst(l: seq<Action>, x: Action): (r: seq<Action>)
    ensures x in l ==> |r| == |l| - 1
    ensures x !in l ==> r == l
  {
    if l == [] then []
    else if l[0] == x then l[1..]
    else [l[0]] + RemoveFirst(l[1..], x)
  }

  /**
   * `for action in ready: remaining.remove(action)` when `ready` is the very
   * list `remaining`: the loop index walks on while the list shrinks beneath it.
   */
  function RemoveWhileIterating(l: seq<Action>, i: nat): (r: seq<Action>)
    ensures |r| <= |l|
    ensures i < |l| ==> |r| < |l|
    decreases |l| - i
  {
    if i < |l| then RemoveWhileIterating(RemoveFirst(l, l[i]), i + 1) else l
  }

  /** The source's rounds, in which the stuck round aliases `ready` to `remaining`. */
  function OrderFromAsWritten(remaining: seq<Action>, placed: seq<Action>): seq<Action>
    decreases |remaining|
  {
    if remaining == [] then []
    else
      var split := Split(remaining, placed);
      if split.0 != [] then split.0 + OrderFromAsWritten(split.1, placed + split.0)
      else remaining + OrderFromAsWritten(RemoveWhileIterating(remaining, 0), placed + remaining)
  }

  function TopologicalOrderAsWritten(actions: seq<Action>): seq<Action>
  {
    OrderFromAsWritten(actions, [])
  }

  /** Two actions that depend on each other. */
  const CycleA: Action := Action("a", "", 0, 0.0, 1.0, ["b"], [])
  const CycleB: Action := Action("b", "", 0, 0.0, 1.0, ["a"], [])

  lemma CycleRounds()
    ensures Split([CycleA, CycleB], []) == ([], [CycleA, CycleB])
    ensures Split([CycleB], [CycleA, CycleB]) == ([CycleB], [])
  {
    CycleStuck();
    CycleLeftoverReady();
  }

  lemma CycleStuck()
    ensures Split([CycleA, CycleB], []) == ([], [CycleA, CycleB])
  {
    var none: seq<Action> := [];
    assert "b" in CycleA.dependencies && "a" in CycleB.dependencies;
    assert !DepsMet(CycleA, none) && !DepsMet(CycleB, none);
    SplitSnoc(none, CycleA, none);
    assert none + [CycleA] == [CycleA];
    SplitSnoc([CycleA], CycleB, none);
    assert [CycleA] + [CycleB] == [CycleA, CycleB];
  }

  lemma CycleLeftoverReady()
    ensures Split([CycleB], [CycleA, CycleB]) == ([CycleB], [])
  {
    var none: seq<Action> := [];
    assert Names([CycleA, CycleB]) == ["a", "b"];
    assert DepsMet(CycleB, [CycleA, CycleB]);
    SplitSnoc(none, CycleB, [CycleA, CycleB]);
    assert none + [CycleB] == [CycleB];
  }

  /** The stuck round of the as-written sort, unfolded once. */
  lemma StuckRoundAsWritten(remaining: seq<Action>, placed: seq<Action>)
    requires remaining != [] && Split(remaining, placed).0 == []
    ensures OrderFromAsWritten(remaining, placed)
            == remaining + OrderFromAsWritten(RemoveWhileIterating(remaining, 0), placed + remaining)
  {
  }

  /** The second round of the as-written sort on the cycle places the leftover again. */
  lemma CycleLeftoverAsWritten()
    ensures OrderFromAsWritten([CycleB], [CycleA, CycleB]) == [CycleB]
  {
    CycleRounds();
    var none: seq<Action> := [];
    assert OrderFromAsWritten(none, [CycleA, CycleB] + [CycleB]) == [];
    assert [CycleB] + none == [CycleB];
  }

  /** A stuck round followed by a round that places the single leftover. */
  lemma StuckThenLeftover(remaining: seq<Action>, x: Action)
    requires remaining != [] && Split(remaining, []).0 == []
    requires RemoveWhileIterating(remaining, 0) == [x]
    requires OrderFromAsWritten([x], remaining) == [x]
    ensures TopologicalOrderAsWritten(remaining) == remaining + [x]
  {
    var none: seq<Action> := [];
    StuckRoundAsWritten(remaining, none);
    assert none + remaining == remaining;
  }

  /**
   * On the two-action cycle the source emits the second action twice, so its
   * order is not a permutation of its input.
   */
  lemma CycleDuplicatesAsWritten()
    ensures TopologicalOrderAsWritten([CycleA, CycleB]) == [CycleA, CycleB, CycleB]
    ensures multiset(TopologicalOrderAsWritten([CycleA, CycleB])) != multiset([CycleA, CycleB])
  {
    CycleRounds();
    CycleAliasedRemoval();
    CycleLeftoverAsWritten();
    StuckThenLeftover([CycleA, CycleB], CycleB);
    assert [CycleA, CycleB] + [CycleB] == [CycleA, CycleB, CycleB];
    assert multiset([CycleA, CycleB, CycleB])[CycleB] == 2;
  }

  /** Removing from the list being iterated drops only the first of the two actions. */
  lemma CycleAliasedRemoval()
    ensures RemoveWhileIterating([CycleA, CycleB], 0) == [CycleB]
  {
    assert [CycleA, CycleB][0] == CycleA;
    assert RemoveFirst([CycleA, CycleB], CycleA) == [CycleA, CycleB][1..] == [CycleB];
    assert RemoveWhileIterating([CycleB], 1) == [CycleB];
  }

  /** The corrected sort emits the cycle once, in input order. */
  lemma CycleOnceCorrected()
    ensures TopologicalOrder([CycleA, CycleB]) == [CycleA, CycleB]
  {
    CycleRounds();
  }
}
