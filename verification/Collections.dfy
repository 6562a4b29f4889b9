/** Small helpers shared by the other modules. */
module Collections {

  datatype Option<+T> = None | Some(value: T)

  /** Any element of a non-empty set: the order in which a hash map or a set is iterated is left open. */
  method Pick<T>(s: set<T>) returns (x: T)
    requires s != {}
    ensures x in s
  {
    x :| x in s;
  }
}
