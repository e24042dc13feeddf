/** Warnings that accompany a command's result, collected in an array the callees share. */
module Warnings {

  /** A warning, reduced to its code. */
  type Warning = string

  /** The array a caller passes on and its callees push to. */
  class WarningList {
    var items: seq<Warning>

    constructor ()
      ensures items == []
    {
      items := [];
    }

    method Push(code: Warning)
      modifies this
      ensures items == old(items) + [code]
    {
      items := items + [code];
    }
  }

  /** How often a code occurs. */
  function Count(items: seq<Warning>, code: Warning): nat {
    multiset(items)[code]
  }
}
