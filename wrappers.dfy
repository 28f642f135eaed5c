/** The optional-value datatype used for the source's `undefined`/`null`
    values, and the single-selection toggle the pages build on it. */
module Wrappers {

  datatype Option<+T> = None | Some(value: T)

  /** `current === clicked ? null : clicked`: clicking the selected entry clears
      the selection, clicking any other entry selects it (and only it). */
  function Toggle<T(==)>(current: Option<T>, clicked: T): (r: Option<T>)
    ensures r.None? <==> current == Some(clicked)
    ensures r.Some? ==> r.value == clicked
  {
    if current == Some(clicked) then None else Some(clicked)
  }
}
