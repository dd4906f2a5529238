/** Linear search over a sequence (`arrayFind`, `arrayContains`). */
module Search {
  import opened Wrappers

  /** The first element of `a` satisfying `pred`, or None when there is none. */
  function Find<T>(a: seq<T>, pred: T -> bool): Option<T> {
    if a == [] then None
    else if pred(a[0]) then Some(a[0])
    else Find(a[1..], pred)
  }

  /**
   * The search finds nothing exactly when no element satisfies `pred`, and
   * otherwise returns the element at the first index that does.
   */
  lemma {:induction false} FindSpec<T>(a: seq<T>, pred: T -> bool)
    ensures Find(a, pred).None? <==> forall j :: 0 <= j < |a| ==> !pred(a[j])
    ensures Find(a, pred).Some? ==>
              exists j :: 0 <= j < |a| && a[j] == Find(a, pred).value && pred(a[j]) &&
                          forall i :: 0 <= i < j ==> !pred(a[i])
    decreases |a|
  {
    if a != [] && !pred(a[0]) {
      FindSpec(a[1..], pred);
      assert forall j :: 1 <= j < |a| ==> a[j] == a[1..][j - 1];
      if Find(a, pred).Some? {
        var j :| 0 <= j < |a[1..]| && a[1..][j] == Find(a, pred).value && pred(a[1..][j]) &&
                 forall i :: 0 <= i < j ==> !pred(a[1..][i]);
        assert a[j + 1] == Find(a, pred).value && pred(a[j + 1]);
        assert forall i :: 0 <= i < j + 1 ==> !pred(a[i]);
      }
    }
  }

  /** `arrayFind`: scans in order and returns at the first match. */
  method ArrayFind<T>(a: seq<T>, pred: T -> bool) returns (r: Option<T>)
    ensures r == Find(a, pred)
  {
    for i := 0 to |a|
      invariant Find(a[i..], pred) == Find(a, pred)
    {
      if pred(a[i]) {
        return Some(a[i]);
      }
      assert a[i..][1..] == a[i + 1..];
    }
    return None;
  }

  /** `arrayContains`: true exactly when some element satisfies `pred`. */
  method ArrayContains<T>(a: seq<T>, pred: T -> bool) returns (b: bool)
    ensures b <==> exists j :: 0 <= j < |a| && pred(a[j])
    ensures b == Find(a, pred).Some?
  {
    FindSpec(a, pred);
    for i := 0 to |a|
      invariant forall j :: 0 <= j < i ==> !pred(a[j])
    {
      if pred(a[i]) {
        return true;
      }
    }
    return false;
  }
}
