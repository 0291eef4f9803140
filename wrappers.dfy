/** The optional value the cog stores for a guild without a voice client (Python's None). */
module Wrappers {

  datatype Option<+T> = None | Some(value: T)
}
