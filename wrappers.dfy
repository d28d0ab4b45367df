/** The optional value used throughout the model, standing for Rust's `Option`. */
module Wrappers {
  datatype Option<+T> = None | Some(value: T)

  /** The zero- or one-element sequence holding an optional value. */
  function OptionSeq<T>(o: Option<T>): (s: seq<T>)
    ensures |s| <= 1
    ensures o.Some? <==> |s| == 1
    ensures o.Some? ==> s[0] == o.value
  {
    match o
    case None => []
    case Some(v) => [v]
  }
}
