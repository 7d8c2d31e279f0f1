/** The browser's object-URL registry as the editor uses it: `URL.createObjectURL`
    hands out a handle that was never handed out before, `URL.revokeObjectURL`
    releases one. The registry is a counter of issued handles and the log of
    every release, in call order. */
module ObjectUrls {
  import opened Types

  class Registry {
    /** Handles 0 .. issued - 1 have been handed out. */
    var issued: nat
    /** Every release, in the order the editor asked for it. */
    var released: seq<ObjectUrl>

    /** A handle that was handed out and has not been released since. */
    predicate Live(u: ObjectUrl)
      reads this
    {
      u.handle < issued && u !in released
    }

    constructor ()
      ensures issued == 0 && released == []
    {
      issued := 0;
      released := [];
    }

    /** `URL.createObjectURL(file)`: the new handle differs from every handle issued before. */
    method Create(file: File) returns (u: ObjectUrl)
      modifies this
      ensures u == ObjectUrl(old(issued))
      ensures issued == old(issued) + 1 && released == old(released)
    {
      u := ObjectUrl(issued);
      issued := issued + 1;
    }

    /** `URL.revokeObjectURL(u)`: afterwards `u` is no longer live. */
    method Revoke(u: ObjectUrl)
      modifies this
      ensures released == old(released) + [u] && issued == old(issued)
      ensures !Live(u)
    {
      released := released + [u];
    }
  }
}
