/** The Detroit Local Development Finance Authority spider: its title rule. */
module LocalDevelopmentFinance {
  import opened Text
  import opened Authority
  import opened Items

  /** A public information meeting when the joined link titles say so, in any case; otherwise the board. */
  function Title(links: seq<Link>): (r: String)
    ensures r == "Public Information Meeting" <==> Contains(Upper(LinkText(links)), "PUBLIC INFORMATION")
    ensures r == "Public Information Meeting" || r == "Board of Directors"
  {
    if Contains(Upper(LinkText(links)), "PUBLIC INFORMATION") then "Public Information Meeting" else "Board of Directors"
  }

  /** The words in any one link title, in any case, are enough. */
  lemma InOneTitle(links: seq<Link>, k: nat)
    requires k < |links| && Contains(Upper(links[k].title), "PUBLIC INFORMATION")
    ensures Title(links) == "Public Information Meeting"
  {
    UpperKeyword(links, k, "PUBLIC INFORMATION");
  }

  /** A meeting without links is a board meeting. */
  lemma NoLinks()
    ensures Title([]) == "Board of Directors"
  {
    assert LinkText([]) == [];
  }
}
