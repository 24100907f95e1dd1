/** The cycle button: each click advances the value to the next option, wrapping around. */
module CycleButton {
  import opened Wrappers

  /** `s.indexOf(v)`: the first position of `v`, or -1 when it does not occur. */
  function IndexOf<T(==)>(s: seq<T>, v: T): (i: int)
    ensures -1 <= i < |s|
  {
    if |s| == 0 then -1
    else if s[0] == v then 0
    else
      var k := IndexOf(s[1..], v);
      if k == -1 then -1 else k + 1
  }

  /** The position `IndexOf` gives holds the first occurrence, and it is -1 exactly for a missing value. */
  lemma {:induction false} IndexOfSpec<T>(s: seq<T>, v: T)
    ensures IndexOf(s, v) == -1 <==> v !in s
    ensures IndexOf(s, v) >= 0 ==> s[IndexOf(s, v)] == v && forall j :: 0 <= j < IndexOf(s, v) ==> s[j] != v
  {
    if |s| > 0 && s[0] != v {
      IndexOfSpec(s[1..], v);
    }
  }

  /**
   * `handleClick`: the option after the current value's first position,
   * wrapping after the last, and the first option for a value that is not
   * an option. With no options there is nothing to give (`undefined`).
   * Both operands of `%` are non-negative here, where JavaScript's remainder
   * and Dafny's agree.
   */
  function Next<T(==)>(options: seq<T>, value: T): (r: Option<T>)
    ensures r.None? <==> |options| == 0
    ensures r.Some? ==> r.value in options
    ensures |options| > 0 && value !in options ==> r == Some(options[0])
    ensures 0 <= IndexOf(options, value) < |options| - 1 ==> r == Some(options[IndexOf(options, value) + 1])
    ensures |options| > 0 && IndexOf(options, value) == |options| - 1 ==> r == Some(options[0])
  {
    if |options| == 0 then None
    else
      IndexOfSpec(options, value);
      var next := IndexOf(options, value) + 1;
      ModWrap(next, |options|);
      Some(options[next % |options|])
  }

  /** The remainder of a number between 0 and `n` inclusive: itself, or 0 for `n`. */
  lemma ModWrap(a: int, n: int)
    requires 0 <= a <= n && n > 0
    ensures a % n == if a == n then 0 else a
  {
    if a == n {
      assert n % n == 0;
    }
  }

  /** No option occurs twice. */
  predicate DistinctOptions<T(==)>(s: seq<T>) {
    forall i, j :: 0 <= i < j < |s| ==> s[i] != s[j]
  }

  /** The value after `k` clicks starting from `value`. */
  function Clicks<T(==)>(options: seq<T>, value: T, k: nat): T
    requires |options| > 0
  {
    if k == 0 then value else Next(options, Clicks(options, value, k - 1)).value
  }

  /** Clicking `a` times and then `b` times is clicking `a + b` times. */
  lemma {:induction false} ClicksCompose<T>(options: seq<T>, value: T, a: nat, b: nat)
    requires |options| > 0
    ensures Clicks(options, Clicks(options, value, a), b) == Clicks(options, value, a + b)
  {
    if b > 0 {
      ClicksCompose(options, value, a, b - 1);
    }
  }

  /** With distinct options, `k` clicks from option `i` reach option `i + k` while it exists, and the first option right after the last. */
  lemma {:induction false} ClicksAdvance<T>(options: seq<T>, i: nat, k: nat)
    requires DistinctOptions(options) && i + k < |options|
    ensures Clicks(options, options[i], k) == options[i + k]
  {
    if k > 0 {
      ClicksAdvance(options, i, k - 1);
      NextDistinct(options, i + k - 1);
    }
  }

  /** With distinct options, the click on option `j` gives option `j + 1`. */
  lemma NextDistinct<T>(options: seq<T>, j: nat)
    requires DistinctOptions(options) && j + 1 < |options|
    ensures Next(options, options[j]) == Some(options[j + 1])
  {
    IndexOfDistinct(options, j);
  }

  lemma IndexOfDistinct<T>(options: seq<T>, j: nat)
    requires DistinctOptions(options) && j < |options|
    ensures IndexOf(options, options[j]) == j
  {
    IndexOfSpec(options, options[j]);
  }

  /** With distinct options, the click after the last option gives the first one. */
  lemma WrapLast<T>(options: seq<T>)
    requires DistinctOptions(options) && |options| > 0
    ensures Next(options, options[|options| - 1]) == Some(options[0])
  {
    IndexOfDistinct(options, |options| - 1);
  }

  /** With distinct options, from option `i` the clicks up to the end of the sequence and one more give the first option. */
  lemma {:induction false} ClicksWrap<T>(options: seq<T>, i: nat)
    requires DistinctOptions(options) && i < |options|
    ensures Clicks(options, options[i], |options| - i) == options[0]
  {
    var toLast := |options| - 1 - i;
    ClicksAdvance(options, i, toLast);
    WrapLast(options);
  }

  /** Clicks that reach `mid` and then go on from there reach `last` in the summed number of clicks. */
  lemma ClicksThrough<T>(options: seq<T>, value: T, mid: T, last: T, a: nat, b: nat)
    requires |options| > 0
    requires Clicks(options, value, a) == mid && Clicks(options, mid, b) == last
    ensures Clicks(options, value, a + b) == last
  {
    ClicksCompose(options, value, a, b);
  }

  /** With distinct options, as many clicks as there are options bring option `i` back. */
  lemma {:induction false} FullCycleAt<T>(options: seq<T>, i: nat)
    requires DistinctOptions(options) && i < |options|
    ensures Clicks(options, options[i], |options|) == options[i]
  {
    ClicksWrap(options, i);
    ClicksAdvance(options, 0, i);
    ClicksThrough(options, options[i], options[0], options[i], |options| - i, i);
  }

  /** With distinct options, as many clicks as there are options bring any option back. */
  lemma {:induction false} FullCycle<T>(options: seq<T>, value: T)
    requires DistinctOptions(options) && value in options
    ensures Clicks(options, value, |options|) == value
  {
    IndexOfSpec(options, value);
    FullCycleAt(options, IndexOf(options, value));
  }
}
