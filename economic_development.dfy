/** The Detroit Economic Development Corporation spider: its title rules and its location check. */
module EconomicDevelopment {
  import opened Wrappers
  import opened Text
  import opened Authority
  import opened Items

  /** The meeting title from the joined link titles: a committee, else a special meeting, else the board. */
  function Title(links: seq<Link>): (r: String)
    ensures !Contains(Lower(LinkText(links)), "committee") ==>
      r == (if Contains(Lower(LinkText(links)), "special") then "Special Board Meeting" else "Board of Directors")
  {
    var text := LinkText(links);
    if Contains(Lower(text), "committee") then CommitteeTitle(text, "EDC")
    else if Contains(Lower(text), "special") then "Special Board Meeting"
    else "Board of Directors"
  }

  /** "committee" in any one link title decides, even when another says "special". */
  lemma CommitteeBeforeSpecial(links: seq<Link>, k: nat, m: nat)
    requires k < |links| && Contains(Lower(links[k].title), "committee")
    requires m < |links| && Contains(Lower(links[m].title), "special")
    ensures Title(links) == CommitteeTitle(LinkText(links), "EDC")
  {
    LowerKeyword(links, k, "committee");
  }

  /** "special" in one link title and "committee" in none gives the special meeting. */
  lemma SpecialMeeting(links: seq<Link>, m: nat)
    requires m < |links| && Contains(Lower(links[m].title), "special")
    requires !Contains(Lower(LinkText(links)), "committee")
    ensures Title(links) == "Special Board Meeting"
  {
    LowerKeyword(links, m, "special");
  }

  /** A meeting without links is a board meeting. */
  lemma NoLinks()
    ensures Title([]) == "Board of Directors"
  {
    assert LinkText([]) == [];
  }

  /** This spider's `_validate_location` overrides the mixin's check and accepts any text. */
  function ValidateLocation(text: String): (r: Result<()>)
    ensures r.Ok?
  {
    Ok(())
  }

  /** The mixin's check would refuse a page without the address; this spider's never does. */
  lemma ValidateLocationOverride(text: String)
    requires !Contains(text, "500 Griswold")
    ensures Authority.ValidateLocation(text).Err? && ValidateLocation(text).Ok?
  {
  }
}
