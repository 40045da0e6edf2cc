/**
 * The browser's address: the current path and every replacement of the current
 * history entry.  React Router's location and `window.location` are the same path
 * here; both `navigate(path, { replace: true })` and `history.replaceState` replace
 * the entry.
 */
module Browser {
  class Location {
    var pathname: string
    /** Every path the current entry was replaced with, in order. */
    var replaced: seq<string>

    constructor(pathname: string)
      ensures this.pathname == pathname && replaced == []
    {
      this.pathname := pathname;
      replaced := [];
    }

    /** Replace the current history entry with `path`. */
    method Replace(path: string)
      modifies this
      ensures pathname == path && replaced == old(replaced) + [path]
    {
      pathname := path;
      replaced := replaced + [path];
    }
  }
}
