/** The optional value used across the ledger model: `None` stands for a value
    the source represents as `null`, `undefined` or `NaN`. */
module Wrappers {
  datatype Option<+T> = None | Some(value: T)
}
