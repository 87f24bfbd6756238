/** The auto-focus effect of the tile board: after every change of the tiles it
    looks, in slot order, for the first mounted input whose value is empty. The
    DOM `focus()` call itself is outside the model; only the choice of slot is. */
module Focus {

  import opened Options

  /** One entry of the list of input references: `None` is a null reference
      (an input not mounted), `Some(v)` a mounted input whose value is `v`. */
  type InputRef = Option<string>

  /** The test `ref && !ref.value`: a mounted input with an empty value. */
  predicate IsEmptyInput(r: InputRef)
  {
    r.Some? && r.value == ""
  }

  /** `inputRef.current.find(...)`, as the index of the element it finds:
      the least index of an empty mounted input, or `None` when there is none. */
  function FirstEmptySlot(refs: seq<InputRef>): (r: Option<nat>)
    ensures r.Some? ==> r.value < |refs| && IsEmptyInput(refs[r.value])
    ensures r.Some? ==> forall j :: 0 <= j < r.value ==> !IsEmptyInput(refs[j])
    ensures r.None? <==> forall j :: 0 <= j < |refs| ==> !IsEmptyInput(refs[j])
  {
    if refs == [] then None
    else if IsEmptyInput(refs[0]) then Some(0)
    else
      match FirstEmptySlot(refs[1..])
      case None => None
      case Some(k) => Some(k + 1)
  }

  /** The references once every slot is rendered: input `i` shows tile `i`. */
  function Mounted(tiles: seq<string>): seq<InputRef>
  {
    seq(|tiles|, i requires 0 <= i < |tiles| => Some(tiles[i]))
  }

  /** On a rendered board the focus goes to the least empty tile, and to no
      tile exactly when every tile is filled. */
  lemma FocusOnRenderedBoard(tiles: seq<string>)
    ensures var r := FirstEmptySlot(Mounted(tiles));
      && (r.Some? ==> r.value < |tiles| && tiles[r.value] == ""
                      && forall j :: 0 <= j < r.value ==> tiles[j] != "")
      && (r.None? <==> forall j :: 0 <= j < |tiles| ==> tiles[j] != "")
  {
    var refs := Mounted(tiles);
    assert forall j :: 0 <= j < |tiles| ==> (IsEmptyInput(refs[j]) <==> tiles[j] == "");
  }
}
