/** The Detroit Downtown Development Authority spider: its title rule. */
module DowntownDevelopment {
  import opened Text
  import opened Authority
  import opened Items

  /** The meeting title from the joined link titles: a committee, else the board. */
  function Title(links: seq<Link>): (r: String)
    ensures Contains(Lower(LinkText(links)), "committee") ==> r == CommitteeTitle(LinkText(links), "DDA")
    ensures !Contains(Lower(LinkText(links)), "committee") ==> r == "Board of Directors"
  {
    var text := LinkText(links);
    if Contains(Lower(text), "committee") then CommitteeTitle(text, "DDA") else "Board of Directors"
  }

  /** "committee" in any one link title, in any case, makes it a committee meeting. */
  lemma CommitteeInOneTitle(links: seq<Link>, k: nat)
    requires k < |links| && Contains(Lower(links[k].title), "committee")
    ensures Title(links) == CommitteeTitle(LinkText(links), "DDA")
  {
    LowerKeyword(links, k, "committee");
  }

  /** A meeting without links is a board meeting. */
  lemma NoLinks()
    ensures Title([]) == "Board of Directors"
  {
    assert LinkText([]) == [];
  }
}
