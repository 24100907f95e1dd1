/** The chip selector's click rule, in its multi-select and single-select forms. */
module ChipSelect {
  import opened Wrappers
  import opened Collections

  /**
   * A click on `value` in multi-select mode: a selected value is removed
   * (every occurrence of it), an unselected one is appended at the end.
   * Only the clicked value's membership changes.
   */
  function ToggleMulti<T(==,!new)>(selected: seq<T>, value: T): (r: seq<T>)
    ensures value in r <==> value !in selected
    ensures forall y :: y != value ==> (y in r <==> y in selected)
    ensures value in selected ==> multiset(r) == multiset(selected)[value := 0]
    ensures value !in selected ==> multiset(r) == multiset(selected) + multiset{value}
  {
    if value in selected then Without(selected, value) else selected + [value]
  }

  /**
   * The order of the other selected values survives a toggle: removing keeps
   * them in order, adding puts the clicked value after all of them.
   */
  lemma ToggleMultiOrder<T(!new)>(selected: seq<T>, value: T)
    ensures value in selected ==> Subsequence(ToggleMulti(selected, value), selected) && |ToggleMulti(selected, value)| < |selected|
    ensures value in selected ==> multiset(ToggleMulti(selected, value)) == multiset(selected)[value := 0]
    ensures value !in selected ==> ToggleMulti(selected, value) == selected + [value]
  {
    if value in selected {
      WithoutIsSubsequence(selected, value);
      WithoutShorter(selected, value);
    }
  }

  lemma {:induction false} WithoutShorter<T(!new)>(s: seq<T>, x: T)
    requires x in s
    ensures |Without(s, x)| < |s|
  {
    if s[0] != x {
      WithoutShorter(s[1..], x);
    }
  }

  /** Clicking an unselected value twice restores the selection exactly. */
  lemma {:induction false} ToggleMultiTwice<T(!new)>(selected: seq<T>, value: T)
    requires value !in selected
    ensures ToggleMulti(ToggleMulti(selected, value), value) == selected
  {
    WithoutAbsent(selected, value);
    WithoutLast(selected, value);
  }

  lemma {:induction false} WithoutLast<T(!new)>(s: seq<T>, x: T)
    requires x !in s
    ensures Without(s + [x], x) == Without(s, x)
  {
    if |s| == 0 {
      assert [x][1..] == [];
    } else {
      assert (s + [x])[1..] == s[1..] + [x];
      WithoutLast(s[1..], x);
    }
  }

  /**
   * A click on `value` in single-select mode: the current value is cleared,
   * any other value becomes the selection.
   */
  function SelectSingle<T(==)>(current: Option<T>, value: T): (r: Option<T>)
    ensures r.None? <==> current == Some(value)
    ensures r.Some? ==> r.value == value
  {
    if current == Some(value) then None else Some(value)
  }

  /** Two clicks on the same chip in single-select mode return to where they started when it was selected. */
  lemma SelectSingleTwice<T>(current: Option<T>, value: T)
    ensures current == Some(value) ==> SelectSingle(SelectSingle(current, value), value) == current
    ensures current != Some(value) ==> SelectSingle(SelectSingle(current, value), value) == None
  {
  }
}
