/** The optional values the component keeps: an HTTP header that may not be set
    yet, a banner or summary dump that may not be on screen. */
module Wrappers {

  datatype Option<+T> = None | Some(value: T)
}
