/** The native view's list of gesture recognizers and the change that
    enabling or disabling touch events makes to it. */
module GestureRecognizers {

  /** `rs` with every occurrence of `h` taken out, the rest in order. */
  function Without(rs: seq<object>, h: object): (r: seq<object>)
    ensures forall o :: o in r ==> o in rs && o != h
    ensures forall o :: o in rs && o != h ==> o in r
    ensures |r| <= |rs|
    ensures h !in rs ==> r == rs
  {
    if rs == [] then []
    else if rs[0] == h then Without(rs[1..], h)
    else [rs[0]] + Without(rs[1..], h)
  }

  /** The recognizer list after the touch handler `h` enables (`enable`) or
      disables touch events on the view: it is added when enabling and not
      yet present, removed when disabling and present, and otherwise the list
      is left alone. */
  function RecognizersAfter(rs: seq<object>, h: object, enable: bool): (r: seq<object>)
    ensures h in r <==> enable
    ensures forall o :: o in r && o != h ==> o in rs
    ensures forall o :: o in rs && o != h ==> o in r
    ensures (h in rs) == enable ==> r == rs
  {
    if enable && h !in rs then rs + [h]
    else if !enable && h in rs then Without(rs, h)
    else rs
  }
}
