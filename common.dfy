/** An optional value: an attribute that may be missing, a focus that may be nowhere. */
module Wrappers {
  datatype Option<+T> = None | Some(value: T)
}

/** The keyboard keys the page's handlers tell apart (the `key` of a keydown event). */
module Keys {
  datatype Key =
    | Enter
    | Space
    | ArrowUp
    | ArrowDown
    | ArrowLeft
    | ArrowRight
    | Home
    | End
    | Escape
    | Other
}
