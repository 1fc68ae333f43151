/** Visiting a set of keys in any order, as ranging over a map does. */
module Walks {

  /** One key moves from those pending to those done. */
  lemma OneVisited(keys: set<string>, pending: set<string>, done: set<string>, k: string)
    requires pending !! done && pending + done == keys && k in pending
    ensures (pending - {k}) !! (done + {k}) && (pending - {k}) + (done + {k}) == keys && |pending - {k}| < |pending|
  {
  }
}
