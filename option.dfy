/** The optional value the widget's `undefined`/`null` results become. */
module Opt {

  datatype Option<+T> = None | Some(value: T)
}
