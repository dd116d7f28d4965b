/** The list operations of the game loop: the pruning passes
    `list.filter(e => { e.update(); return keep(e) })`, which update every
    element and keep, in order, the updated elements that pass the test, and
    `splice(i, 1)`, which removes one element. */
module Lists {

  /** The updated elements of `s` that satisfy `keep`, in their original order. */
  function FilterUpdated<T>(s: seq<T>, step: T -> T, keep: T -> bool): (r: seq<T>)
    ensures |r| <= |s|
    decreases |s|
  {
    if |s| == 0 then []
    else
      var rest := FilterUpdated(s[..|s| - 1], step, keep);
      var last := step(s[|s| - 1]);
      if keep(last) then rest + [last] else rest
  }

  /** The pass keeps exactly what it should: everything kept passes the test
      and is the update of some element, and every updated element that
      passes the test is kept. */
  lemma {:induction false} FilterUpdatedKeeps<T>(s: seq<T>, step: T -> T, keep: T -> bool)
    ensures forall x :: x in FilterUpdated(s, step, keep) ==>
              keep(x) && exists k :: 0 <= k < |s| && x == step(s[k])
    ensures forall k :: 0 <= k < |s| && keep(step(s[k])) ==> step(s[k]) in FilterUpdated(s, step, keep)
    decreases |s|
  {
    if |s| > 0 {
      var init := s[..|s| - 1];
      FilterUpdatedKeeps(init, step, keep);
      assert forall k :: 0 <= k < |s| - 1 ==> init[k] == s[k];
    }
  }

  /** Whether some element of `s`, once updated, passes `test`. */
  function AnyUpdated<T>(s: seq<T>, step: T -> T, test: T -> bool): (r: bool)
    ensures r ==> |s| > 0
    decreases |s|
  {
    if |s| == 0 then false
    else AnyUpdated(s[..|s| - 1], step, test) || test(step(s[|s| - 1]))
  }

  /** The test holds of some updated element exactly when `AnyUpdated` says so. */
  lemma {:induction false} AnyUpdatedWitness<T>(s: seq<T>, step: T -> T, test: T -> bool)
    ensures AnyUpdated(s, step, test) <==> exists k :: 0 <= k < |s| && test(step(s[k]))
    decreases |s|
  {
    if |s| > 0 {
      var init := s[..|s| - 1];
      AnyUpdatedWitness(init, step, test);
      assert forall k :: 0 <= k < |s| - 1 ==> init[k] == s[k];
    }
  }

  /** One more element of a left-to-right pass: how the pruned prefix grows. */
  lemma FilterUpdatedExtend<T>(s: seq<T>, k: nat, step: T -> T, keep: T -> bool)
    requires k < |s|
    ensures FilterUpdated(s[..k + 1], step, keep) ==
            if keep(step(s[k])) then FilterUpdated(s[..k], step, keep) + [step(s[k])]
            else FilterUpdated(s[..k], step, keep)
  {
    assert s[..k + 1][..k] == s[..k];
  }

  /** One more element of a left-to-right pass: how the test over the prefix grows. */
  lemma AnyUpdatedExtend<T>(s: seq<T>, k: nat, step: T -> T, test: T -> bool)
    requires k < |s|
    ensures AnyUpdated(s[..k + 1], step, test) == (AnyUpdated(s[..k], step, test) || test(step(s[k])))
  {
    assert s[..k + 1][..k] == s[..k];
  }

  /** `s.splice(i, 1)`: exactly the element at `i` is gone, the rest keep their order. */
  function Removed<T>(s: seq<T>, i: nat): (r: seq<T>)
    requires i < |s|
    ensures |r| == |s| - 1
  {
    s[..i] + s[i + 1..]
  }

  /** The elements before `i` stay where they were; those after move down one. */
  lemma RemovedElements<T>(s: seq<T>, i: nat)
    requires i < |s|
    ensures forall k :: 0 <= k < i ==> Removed(s, i)[k] == s[k]
    ensures forall k :: i <= k < |s| - 1 ==> Removed(s, i)[k] == s[k + 1]
  {
  }

  /** Removing takes exactly one copy of the element out and adds nothing. */
  lemma RemovedMultiset<T>(s: seq<T>, i: nat)
    requires i < |s|
    ensures multiset(Removed(s, i)) + multiset{s[i]} == multiset(s)
    ensures multiset(Removed(s, i)) <= multiset(s)
  {
    assert s == s[..i] + [s[i]] + s[i + 1..];
  }
}
