/** Swift's `min(max(x, lo), hi)`, the clamp every settings field applies, over the
    integers and over the reals (which stand in for Float and Float64). */
module Clamping {
  function ClampInt(x: int, lo: int, hi: int): (r: int)
    ensures r <= hi
    ensures lo <= hi ==> lo <= r
    ensures lo <= x <= hi ==> r == x
    ensures lo <= hi && x < lo ==> r == lo
    ensures x > hi ==> r == hi
  {
    var atLeast := if x < lo then lo else x;
    if hi < atLeast then hi else atLeast
  }

  function ClampReal(x: real, lo: real, hi: real): (r: real)
    ensures r <= hi
    ensures lo <= hi ==> lo <= r
    ensures lo <= x <= hi ==> r == x
    ensures lo <= hi && x < lo ==> r == lo
    ensures x > hi ==> r == hi
  {
    var atLeast := if x < lo then lo else x;
    if hi < atLeast then hi else atLeast
  }
}
