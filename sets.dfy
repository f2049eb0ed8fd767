/** Two facts about finite sets that the loops over Go maps use. */
module Sets {

  lemma EmptyIfNoElement<T>(s: set<T>)
    requires forall x :: x !in s
    ensures s == {}
  {
    assert forall x :: x in s <==> x in {};
  }

  /** An element of a non-empty set. */
  lemma Member<T>(s: set<T>) returns (x: T)
    requires s != {}
    ensures x in s
  {
    if forall y :: y !in s {
      EmptyIfNoElement(s);
      assert false;
    }
    x :| x in s;
  }
}
