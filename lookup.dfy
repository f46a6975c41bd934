/** Looking a name up in a schema list, as Python's `list.index` does. */
module Lookup {
  import opened Wrappers

  /** Python's `s.index(x)`: the position of the first occurrence of `x`. */
  function IndexOf<T(==)>(s: seq<T>, x: T): (r: Result<nat>)
    ensures r.Ok? <==> x in s
    ensures r.Err? ==> r.error == NotInList
    ensures r.Ok? ==> r.value < |s| && s[r.value] == x && x !in s[..r.value]
  {
    if s == [] then Err(NotInList)
    else if s[0] == x then Ok(0)
    else
      match IndexOf(s[1..], x)
      case Ok(i) =>
        assert s[..i + 1] == [s[0]] + s[1..][..i];
        Ok(i + 1)
      case Err(e) => Err(e)
  }
}
