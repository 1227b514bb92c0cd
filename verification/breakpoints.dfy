/** Breakpoints and the token a builder splices into a class name (src/Utils/BreakpointUtil.cs). */
module Breakpoints {
  import opened Options

  /**
   * A responsive breakpoint. Its token (`Value`) comes from an enumeration
   * package that is not part of this model, so any string is allowed.
   */
  datatype Breakpoint = Breakpoint(value: string)

  /** The one breakpoint whose token the repository pins down: `OnTablet` yields `sm-primary`. */
  const Tablet := Breakpoint("sm")

  /** The token of an optional breakpoint; a missing breakpoint has the empty token. */
  function Token(b: Option<Breakpoint>): (t: string)
    ensures b.Some? ==> t == b.value.value
    ensures t == "" <==> b.None? || b.value.value == ""
  {
    match b
    case None => ""
    case Some(bp) => bp.value
  }

  /** The class token of a breakpoint, an alias of `Token`. */
  function Class(b: Option<Breakpoint>): (t: string)
    ensures t == Token(b)
  {
    Token(b)
  }
}
