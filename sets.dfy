/** Facts about finite sets that the modelled loops and recursions rely on. */
module Sets {

  lemma EmptyIfNoMember<T>(s: set<T>)
    requires forall x :: x !in s
    ensures s == {}
  {
    var empty: set<T> := {};
    assert forall x :: x in s <==> x in empty;
    assert s == empty;
  }

  /** A set that is not empty has a member. */
  lemma NonEmptyWitness<T>(s: set<T>)
    requires s != {}
    ensures exists x :: x in s
  {
    if forall x :: x !in s {
      EmptyIfNoMember(s);
      assert false;
    }
  }

  /** Some member of a set that is not empty. */
  lemma Member<T>(s: set<T>) returns (x: T)
    requires s != {}
    ensures x in s
  {
    NonEmptyWitness(s);
    x :| x in s;
  }
}
