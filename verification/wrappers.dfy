/** Optional values: an argparse attribute that no subcommand set is `None`. */
module Wrappers {

  datatype Option<+T> = None | Some(value: T)
}
