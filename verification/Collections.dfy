/** What several modules need of the built-in collections. */
module Collections {

  datatype Option<T> = None | Some(value: T)

  /** A nonempty set has a member. */
  lemma Member<T>(s: set<T>) returns (x: T)
    requires s != {}
    ensures x in s
  {
    x :| x in s;
  }
}
