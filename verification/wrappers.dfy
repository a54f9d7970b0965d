/** The present/absent value the rule and the searcher return; `None` is the
    "not applicable" / "not found" answer. */
module Wrappers {

  datatype Option<+T> = None | Some(value: T)
}
