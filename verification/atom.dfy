/**
 * An interned atom. atom.rs is not part of this model: an atom is its
 * numeric id together with the handle of the display it belongs to, and
 * it is never released individually.
 */
module Atom {

  /** The atom id 0 (`None` in the X protocol) marks an absent atom. */
  const NONE: int := 0

  datatype Atom = Atom(id: int, display: int)
}
