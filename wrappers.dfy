/** The optional value used wherever the source may find nothing (an empty cell, a missing affinity row). */
module Wrappers {
  datatype Option<+T> = None | Some(value: T)
}
