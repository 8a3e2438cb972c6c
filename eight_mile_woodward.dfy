/** The Detroit Eight Mile Woodward Corridor Improvement Authority spider: its title rule. */
module EightMileWoodward {
  import opened Text
  import opened Authority
  import opened Items

  /** A public information meeting when the joined link titles say so, in any case; otherwise the board. */
  function Title(links: seq<Link>): (r: String)
    ensures r == "Public Information Meeting" <==> Contains(Upper(LinkText(links)), "PUBLIC INFORMATION")
    ensures r == "Public Information Meeting" || r == "Board of Directors"
  {
    if Contains(Upper(LinkText(links)), "PUBLIC INFORMATION") then "Public Information Meeting" else "Board of Directors"
  }

  /** The words in any one link title, in any case, are enough. */
  lemma InOneTitle(links: seq<Link>, k: nat)
    requires k < |links| && Contains(Upper(links[k].title), "PUBLIC INFORMATION")
    ensures Title(links) == "Public Information Meeting"
  {
    UpperKeyword(links, k, "PUBLIC INFORMATION");
  }

  /** The words may also straddle two consecutive titles, joined by their space. */
  lemma AcrossTitles(h1: String, h2: String)
    ensures Title([Link(h1, "Public"), Link(h2, "Information")]) == "Public Information Meeting"
  {
    var links := [Link(h1, "Public"), Link(h2, "Information")];
    var ts := ["Public", "Information"];
    assert Titles(links) == ts;
    assert ts[1..] == ["Information"];
    assert Join(" ", ts) == "Public" + " " + "Information";
    assert LinkText(links) == "Public Information";
    UpperWords();
    ContainsSelf("PUBLIC INFORMATION");
  }

  lemma UpperWords()
    ensures Upper("Public Information") == "PUBLIC INFORMATION"
  {
  }

  /** A meeting without links is a board meeting. */
  lemma NoLinks()
    ensures Title([]) == "Board of Directors"
  {
    assert LinkText([]) == [];
  }
}
