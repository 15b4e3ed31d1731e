/** The nullable column and the "no row" return of the ledger, as a value. */
module Wrappers {

  datatype Option<+T> = None | Some(value: T)
}
