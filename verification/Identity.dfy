/** Optional values: a nullable column, a missing row, an absent argument. */
module Wrappers {

  datatype Option<+T> = None | Some(value: T)

}

/** Execution identity.
  * The repository derives every Execution id as SHA-256 over the JSON text of a tagged tuple. The model
  * takes that digest as injective: an id IS its tuple, so the two tags become two constructors. */
module Identity {

  import opened Wrappers

  datatype Principal = Principal(org: string, user: string)

  datatype Id =
    | Top(caller: Principal, key: string)
    | Child(caller: Principal, parent: Id, step: string, saga: string, key: string)

  function ParentOf(id: Id): Option<Id> {
    match id
    case Top(_, _) => None
    case Child(_, parent, _, _, _) => Some(parent)
  }

  function StepOf(id: Id): Option<string> {
    match id
    case Top(_, _) => None
    case Child(_, _, step, _, _) => Some(step)
  }

  /** Number of parent links above an id. */
  function Depth(id: Id): nat {
    match id
    case Top(_, _) => 0
    case Child(_, parent, _, _, _) => Depth(parent) + 1
  }

}
