/** The optional value used for absent JSON keys, failed parses and "no data" results. */
module Wrappers {

  datatype Option<+T> = None | Some(value: T)
}
