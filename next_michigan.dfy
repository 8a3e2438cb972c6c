/** The Detroit Next Michigan Development Corporation spider: its title rule. */
module NextMichigan {
  import opened Text
  import opened Authority
  import opened Items

  /** A special meeting when the joined link titles say "special", in any case; otherwise the board. */
  function Title(links: seq<Link>): (r: String)
    ensures r == "Special Board Meeting" <==> Contains(Lower(LinkText(links)), "special")
    ensures r == "Special Board Meeting" || r == "Board of Directors"
  {
    if Contains(Lower(LinkText(links)), "special") then "Special Board Meeting" else "Board of Directors"
  }

  /** The word in any one link title, in any case, is enough. */
  lemma InOneTitle(links: seq<Link>, k: nat)
    requires k < |links| && Contains(Lower(links[k].title), "special")
    ensures Title(links) == "Special Board Meeting"
  {
    LowerKeyword(links, k, "special");
  }

  /** A meeting without links is a board meeting. */
  lemma NoLinks()
    ensures Title([]) == "Board of Directors"
  {
    assert LinkText([]) == [];
  }
}
