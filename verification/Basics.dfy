/** What several modules need: optional values and the sizes of machine words. */
module Basics {
  datatype Option<+T> = None | Some(value: T)

  const WORD32 := 0x1_0000_0000
  const WORD64 := 0x1_0000_0000_0000_0000
}
