/** Types that several parts use. */
module Basics {
  datatype Option<+T> = None | Some(value: T)

  /** A C string: its terminating NUL is not part of it. */
  type CString = s: string | '\0' !in s
}
