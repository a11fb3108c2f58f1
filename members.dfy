/**
 * Member records as the user and admin tables show them: an id and an
 * address whose keys come in the order the server sent them, and the text
 * of the tables' address column.
 */
module Members {
  import opened Js

  /** One key of an address object with its value. */
  datatype AddressEntry = AddressEntry(key: string, value: Val)

  /** An address object, its keys in `Object.keys` order. */
  type Address = seq<AddressEntry>

  /** A table row: the member's `_id` and address; the other columns are only displayed. */
  datatype Member = Member(id: string, address: Address)

  /** `address[key] || "_"`: a falsy value shows as "_". */
  function Shown(v: Val): (r: string)
    ensures r != ""
    ensures Truthy(v) ==> r == v.s
    ensures !Truthy(v) ==> r == "_"
  {
    if Truthy(v) then v.s else "_"
  }

  /** `Object.keys(address).reverse().map(key => address[key] || "_")`. */
  function Parts(a: Address): (r: seq<string>)
    ensures |r| == |a|
    ensures forall i :: 0 <= i < |a| ==> r[i] == Shown(a[|a| - 1 - i].value)
  {
    if a == [] then [] else Parts(a[1..]) + [Shown(a[0].value)]
  }

  /** The address column: the parts joined by ", ". */
  function AddressText(a: Address): string
  {
    Join(Parts(a), ", ")
  }

  /** The key added last is shown first, before the text of the earlier keys. */
  lemma AddressTextAppend(a: Address, e: AddressEntry)
    requires a != []
    ensures AddressText(a + [e]) == Shown(e.value) + ", " + AddressText(a)
  {
    assert Parts(a + [e]) == [Shown(e.value)] + Parts(a);
    JoinAppend([Shown(e.value)], Parts(a), ", ");
  }

  /** The address of the member types, keys in their declared order. */
  function TypedAddress(country: Val, province: Val, district: Val, ward: Val, detail: Val): Address
  {
    [AddressEntry("country", country), AddressEntry("province", province), AddressEntry("district", district),
     AddressEntry("ward", ward), AddressEntry("detail", detail)]
  }

  /**
   * An address with the declared key order is shown from the most specific
   * part to the country, with "_" in place of every empty part.
   */
  lemma TypedAddressText(country: Val, province: Val, district: Val, ward: Val, detail: Val)
    ensures Parts(TypedAddress(country, province, district, ward, detail))
         == [Shown(detail), Shown(ward), Shown(district), Shown(province), Shown(country)]
  {
  }
}
