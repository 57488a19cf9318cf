/** Optional values, for the optional fields of the topology documents
    (`config?`, `port?`, `depends_on?`, ...). */
module Wrappers {

  /** The conventional Some/None datatype. */
  datatype Option<+T> = None | Some(value: T)
}
