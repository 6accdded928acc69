/** What a history has come to, when some of its steps set a fact and others clear it. */
module Latest {
  /** The fact held at first and no step cleared it, or some step set it and no later one cleared it. */
  ghost predicate SetAndNotCleared(first: bool, sets: nat -> bool, clears: nat -> bool, n: nat) {
    || (first && forall j: nat :: j < n ==> !clears(j))
    || exists i: nat :: i < n && sets(i) && forall j :: i < j < n ==> !clears(j)
  }

  /** Once cleared, it no longer matters what held at first. */
  lemma ClearedOnce(first: bool, sets: nat -> bool, clears: nat -> bool, n: nat, j: nat)
    requires j < n && clears(j)
    ensures SetAndNotCleared(first, sets, clears, n) <==> SetAndNotCleared(false, sets, clears, n)
  {
  }

  lemma {:induction false} LastDecides(holds: nat -> bool, sets: nat -> bool, clears: nat -> bool, n: nat)
    requires forall k: nat :: k < n ==> (holds(k + 1) <==> sets(k) || (holds(k) && !clears(k)))
    ensures holds(n) <==> SetAndNotCleared(holds(0), sets, clears, n)
  {
    if n > 0 {
      LastDecides(holds, sets, clears, n - 1);
      OneMoreStep(holds(0), sets, clears, n - 1);
    }
  }

  lemma OneMoreStep(first: bool, sets: nat -> bool, clears: nat -> bool, n: nat)
    ensures SetAndNotCleared(first, sets, clears, n + 1)
            <==> sets(n) || (SetAndNotCleared(first, sets, clears, n) && !clears(n))
  {
    if SetAndNotCleared(first, sets, clears, n + 1) && !sets(n) {
      if i: nat :| i < n + 1 && sets(i) && forall j :: i < j < n + 1 ==> !clears(j) {
        assert forall j :: i < j < n ==> !clears(j);
      }
    }
    if SetAndNotCleared(first, sets, clears, n) && !clears(n) {
      if i: nat :| i < n && sets(i) && forall j :: i < j < n ==> !clears(j) {
        assert forall j :: i < j < n + 1 ==> !clears(j);
      }
    }
  }
}
