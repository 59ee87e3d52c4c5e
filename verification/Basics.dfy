/** What all parts share: opaque identifiers, which are only compared, and optional values. */
module Basics {
  type Id = nat

  datatype Option<+T> = None | Some(value: T)

  lemma {:induction false} SubsetSize<T>(some: set<T>, all: set<T>)
    requires some <= all
    ensures |some| <= |all|
  {
    if some != {} {
      var x :| x in some;
      SubsetSize(some - {x}, all - {x});
    }
  }
}
