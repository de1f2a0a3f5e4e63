/**
 * The scanning shape the engine uses everywhere: walk a list in order and stop at
 * the first entry for which a check produces a value (an early `return` inside a
 * `for` loop).
 */
module Scans {
  import opened Wrappers

  /** The value produced by the first entry at index `from` or later whose check yields one. */
  function FirstSome<T, R>(s: seq<T>, check: T -> Option<R>, from: nat): Option<R>
    decreases |s| - from
  {
    if from >= |s| then None
    else if check(s[from]).Some? then check(s[from])
    else FirstSome(s, check, from + 1)
  }

  /** No value is produced exactly when every entry from `from` on is passed over. */
  lemma {:induction false} FirstSomeNone<T, R>(s: seq<T>, check: T -> Option<R>, from: nat)
    ensures FirstSome(s, check, from).None? <==>
            (forall k :: from <= k < |s| ==> check(s[k]).None?)
    decreases |s| - from
  {
    if from < |s| {
      FirstSomeNone(s, check, from + 1);
    }
  }

  /** A produced value comes from some entry, and every entry before it was passed over. */
  lemma {:induction false} FirstSomeWitness<T, R>(s: seq<T>, check: T -> Option<R>, from: nat)
    requires FirstSome(s, check, from).Some?
    ensures exists k :: from <= k < |s| && check(s[k]) == FirstSome(s, check, from) &&
                        (forall j :: from <= j < k ==> check(s[j]).None?)
    decreases |s| - from
  {
    if check(s[from]).None? {
      FirstSomeWitness(s, check, from + 1);
      var k :| from + 1 <= k < |s| && check(s[k]) == FirstSome(s, check, from + 1) &&
               (forall j :: from + 1 <= j < k ==> check(s[j]).None?);
      assert from <= k < |s| && check(s[k]) == FirstSome(s, check, from);
    } else {
      assert check(s[from]) == FirstSome(s, check, from);
    }
  }

  /** Conversely, the first entry that yields a value decides the scan. */
  lemma {:induction false} FirstSomeAt<T, R>(s: seq<T>, check: T -> Option<R>, from: nat, k: nat)
    requires from <= k < |s| && check(s[k]).Some?
    requires forall j :: from <= j < k ==> check(s[j]).None?
    ensures FirstSome(s, check, from) == check(s[k])
    decreases k - from
  {
    if from < k {
      FirstSomeAt(s, check, from + 1, k);
    }
  }
}
