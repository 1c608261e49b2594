/**
 * The output side of `std::fmt::Display`: a formatter that text is written
 * to piece by piece.
 */
module Fmt {

  class Formatter {
    var written: string

    constructor ()
      ensures written == ""
    {
      written := "";
    }

    /** `write!(f, ...)`: appends to what was written so far. */
    method Write(s: string)
      modifies this
      ensures written == old(written) + s
    {
      written := written + s;
    }
  }
}
