/** The place label chosen from a reverse-geocoding answer. */
module Street {
  import opened Geo

  const UnknownLocation: string := "Unknown Location"

  /** The address fields the label may come from; None stands for an absent field. */
  datatype Address = Address(road: Option<string>, suburb: Option<string>, city: Option<string>)

  /** The decoded answer: its address record and its display name, each possibly absent. */
  datatype Lookup = Lookup(address: Option<Address>, displayName: Option<string>)

  /** JavaScript truthiness of an optional string: present and not empty. */
  predicate Truthy(s: Option<string>) {
    s.Some? && s.value != ""
  }

  /** `s.split(',')[0]`: the text before the first comma, or all of s. */
  function BeforeComma(s: string): (r: string)
    ensures |r| <= |s| && r == s[..|r|]
    ensures ',' !in r
    ensures |r| < |s| ==> s[|r|] == ','
  {
    if s == [] || s[0] == ',' then [] else [s[0]] + BeforeComma(s[1..])
  }

  /** The label written to the display, or None when reading the answer throws (no
      answer, or an address without a display name to split), so that the label on
      screen stays as it was. */
  function Label(answer: Option<Lookup>): (r: Option<string>)
    ensures answer.None? ==> r.None?
    ensures answer.Some? && answer.value.address.None? ==> r == Some(UnknownLocation)
    ensures answer.Some? && answer.value.address.Some? ==>
      var a := answer.value.address.value;
      (Truthy(a.road) ==> r == Some(a.road.value)) &&
      (!Truthy(a.road) && Truthy(a.suburb) ==> r == Some(a.suburb.value)) &&
      (!Truthy(a.road) && !Truthy(a.suburb) && Truthy(a.city) ==> r == Some(a.city.value)) &&
      (!Truthy(a.road) && !Truthy(a.suburb) && !Truthy(a.city) ==>
        r == if answer.value.displayName.Some? then Some(BeforeComma(answer.value.displayName.value)) else None)
  {
    match answer
    case None => None
    case Some(data) =>
      match data.address
      case None => Some(UnknownLocation)
      case Some(a) =>
        if Truthy(a.road) then Some(a.road.value)
        else if Truthy(a.suburb) then Some(a.suburb.value)
        else if Truthy(a.city) then Some(a.city.value)
        else if data.displayName.Some? then Some(BeforeComma(data.displayName.value))
        else None
  }
}
