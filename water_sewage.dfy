/** The Detroit Water and Sewerage Department spider: where a Legistar event takes place. */
module WaterSewage {
  import opened Wrappers
  import opened Text
  import opened Items

  /** The event's "Meeting Location" entry: absent, a string, or a dictionary with an optional "label". */
  datatype LocationField = Missing | Plain(text: String) | Labelled(labelText: Option<String>)

  const WaterBoardAddress := "735 Randolph St Detroit, MI 48226"

  /** The address text of the entry, `""` when there is none. */
  function AddressText(field: LocationField): String
  {
    match field
    case Missing => ""
    case Plain(t) => t
    case Labelled(l) => l.GetOr("")
  }

  /**
   * `_parse_location`: an online meeting is a virtual meeting; a Water Board address
   * names the building, keeping the room when the first comma-separated part has one;
   * anything else is the address as given, without a name.
   */
  function ParseLocation(field: LocationField): (r: Place)
    ensures Contains(Lower(AddressText(field)), "online") ==> r == Place("", "Virtual Meeting")
    ensures !Contains(Lower(AddressText(field)), "online") && !Contains(Lower(AddressText(field)), "water board") ==>
      r == Place("", AddressText(field))
    ensures !Contains(Lower(AddressText(field)), "online") && Contains(Lower(AddressText(field)), "water board") ==>
      r.name == "Water Board Building" && EndsWith(r.address, WaterBoardAddress)
  {
    var a0 := AddressText(field);
    var a := if Contains(Lower(a0), "online") then "Virtual Meeting" else a0;
    VirtualIsNotWaterBoard();
    if Contains(Lower(a), "water board") then
      var first := Split(a, ", ")[0];
      var address := if Contains(Lower(first), "room") then first + " " + WaterBoardAddress else WaterBoardAddress;
      assert EndsWith(address, WaterBoardAddress) by {
        assert address[|address| - |WaterBoardAddress|..] == WaterBoardAddress;
      }
      Place("Water Board Building", address)
    else Place("", a)
  }

  /** "Virtual Meeting" does not mention the Water Board. */
  lemma VirtualIsNotWaterBoard()
    ensures !Contains(Lower("Virtual Meeting"), "water board")
  {
    var v := Lower("Virtual Meeting");
    assert v == "virtual meeting";
    CharContains(v, 'w');
    if Contains(v, "water board") {
      assert OccursAt("water board", "w", 0);
      ContainsTrans(v, "water board", "w");
      assert false;
    }
  }

  /**
   * Without "room" in the part before the first ", ", the Water Board building's
   * address replaces the text entirely.
   */
  lemma NoRoom(field: LocationField)
    requires !Contains(Lower(AddressText(field)), "online") && Contains(Lower(AddressText(field)), "water board")
    requires !Contains(Lower(Split(AddressText(field), ", ")[0]), "room")
    ensures ParseLocation(field) == Place("Water Board Building", WaterBoardAddress)
  {
  }

  /** A room before the first comma is kept in front of the building's address. */
  lemma RoomKept(room: String, rest: String)
    requires !Contains(room, ", ") && Contains(Lower(room), "room") && Contains(Lower(room + ", " + rest), "water board")
    requires !Contains(Lower(room + ", " + rest), "online")
    ensures ParseLocation(Plain(room + ", " + rest)) == Place("Water Board Building", room + " " + WaterBoardAddress)
  {
    FindCommaSpace(room, rest);
  }
}
