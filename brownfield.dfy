/** The Detroit Brownfield Redevelopment Authority spider: its title rules and its link-title trimming. */
module Brownfield {
  import opened Wrappers
  import opened Text
  import opened Authority
  import opened Items

  /** `re.match(r"DBRA[\- ]CAC", text)` */
  predicate CacPrefix(text: String)
  {
    |text| >= 8 && text[..4] == "DBRA" && (text[4] == '-' || text[4] == ' ') && text[5..8] == "CAC"
  }

  /**
   * The meeting title from the joined link titles: a committee, else a public
   * hearing, else the community advisory committee, else the board.
   */
  function Title(links: seq<Link>): (r: String)
    ensures !Contains(Lower(LinkText(links)), "committee") && Contains(Lower(LinkText(links)), "public hearing") ==>
      EndsWith(r, " Public Hearing")
    ensures !Contains(Lower(LinkText(links)), "committee") && !Contains(Lower(LinkText(links)), "public hearing") ==>
      r == (if CacPrefix(LinkText(links)) then "Community Advisory Committee" else "Board of Directors")
  {
    var text := LinkText(links);
    if Contains(Lower(text), "committee") then CommitteeTitle(text, "DBRA")
    else if Contains(Lower(text), "public hearing") then SectionTitle(text, " PUBLIC HEARING", " Public Hearing")
    else if CacPrefix(text) then "Community Advisory Committee"
    else "Board of Directors"
  }

  /** "committee" in any one link title, in any case, makes it a committee meeting, whatever else the titles say. */
  lemma CommitteeFirst(links: seq<Link>, k: nat)
    requires k < |links| && Contains(Lower(links[k].title), "committee")
    ensures Title(links) == CommitteeTitle(LinkText(links), "DBRA")
  {
    LowerKeyword(links, k, "committee");
  }

  /**
   * A hearing title is the upper-cased text before the first ` PUBLIC HEARING`;
   * the word in any one link title is enough when no title mentions a committee.
   */
  lemma HearingTitle(links: seq<Link>, k: nat)
    requires k < |links| && Contains(Lower(links[k].title), "public hearing")
    requires !Contains(Lower(LinkText(links)), "committee")
    ensures var r := Title(links); var h := r[..|r| - |" Public Hearing"|];
      EndsWith(r, " Public Hearing") && StartsWith(Upper(LinkText(links)), h) && !Contains(h, " PUBLIC HEARING")
  {
    LowerKeyword(links, k, "public hearing");
  }

  /**
   * The tab name is removed together with the space that joined it to the
   * label: a link titled "DBRA Committee" names the meeting just "Committee".
   */
  lemma TabSwallowsLabel(href: String)
    ensures Title([Link(href, "DBRA Committee")]) == "Committee"
  {
    var links := [Link(href, "DBRA Committee")];
    LowerOfTab();
    CommitteeFirst(links, 0);
    OneLinkText(links);
    CommitteeOfTab();
  }

  /** A step of `TabSwallowsLabel`. */
  lemma CommitteeOfTab()
    ensures CommitteeTitle("DBRA Committee", "DBRA") == "Committee"
  {
    SectionOfTab();
    DropTab();
    assert "DBRA" + " " == "DBRA ";
  }

  /** A step of `TabSwallowsLabel`. */
  lemma LowerOfTab()
    ensures Contains(Lower("DBRA Committee"), "committee")
  {
    assert OccursAt(Lower("DBRA Committee"), "committee", 5);
  }

  /** A single link's title is the whole text. */
  lemma OneLinkText(links: seq<Link>)
    requires |links| == 1
    ensures LinkText(links) == links[0].title
  {
    assert Titles(links) == [links[0].title];
  }

  lemma SectionOfTab()
    ensures SectionTitle("DBRA Committee", " COMMITTEE", " Committee") == "DBRA Committee"
  {
    UpperOfTab();
    SplitOfTab();
    SectionTitleOf("DBRA Committee", " COMMITTEE", " Committee", "DBRA COMMITTEE", "DBRA");
    JoinOfTab();
  }

  lemma JoinOfTab()
    ensures "DBRA" + " Committee" == "DBRA Committee"
  {
    var j := "DBRA" + " Committee";
    assert j[..4] == "DBRA" && j[4..] == " Committee";
  }

  /** The section title is the head of the upper-cased text, then the tag. */
  lemma SectionTitleOf(text: String, marker: String, tag: String, u: String, h: String)
    requires |marker| > 0 && Upper(text) == u && Split(u, marker)[0] == h
    ensures SectionTitle(text, marker, tag) == h + tag
  {
  }

  lemma UpperOfTab()
    ensures Upper("DBRA Committee") == "DBRA COMMITTEE"
  {
  }

  /** A step of `TabSwallowsLabel`. */
  lemma SplitOfTab()
    ensures Split("DBRA COMMITTEE", " COMMITTEE")[0] == "DBRA"
  {
    var u, m := "DBRA COMMITTEE", " COMMITTEE";
    assert OccursAt(u, m, 4);
    forall j | 0 <= j < 4 ensures !OccursAt(u, m, j) {
      assert u[j..j + |m|][0] == u[j] != ' ';
    }
    assert Find(u, m) == Some(4);
  }

  /** A step of `TabSwallowsLabel`. */
  lemma DropTab()
    ensures Replace("DBRA Committee", "DBRA ", "") == "Committee"
  {
    var rest := "Committee";
    if Contains(rest, "DBRA ") {
      assert OccursAt("DBRA ", " ", 4);
      ContainsTrans(rest, "DBRA ", " ");
      CharContains(rest, ' ');
      assert false;
    }
    ReplaceLeading("DBRA ", rest, "");
    SplitTab();
  }

  lemma SplitTab()
    ensures "DBRA " + "Committee" == "DBRA Committee" && [] + "Committee" == "Committee"
  {
    var j := "DBRA " + "Committee";
    assert j[..5] == "DBRA " && j[5..] == "Committee";
  }

  /** A page with no links for the meeting gives the board. */
  lemma NoLinks()
    ensures Title([]) == "Board of Directors"
  {
    assert LinkText([]) == [];
  }

  /** `–` and then whitespace stripped from both ends. */
  function Trim(t: String): (r: String)
    ensures |r| > 0 ==> !IsSpace(r[0]) && !IsSpace(r[|r| - 1])
  {
    Strip(StripChars(t, {'–'}))
  }

  /**
   * What trimming keeps is one window of the title: everything dropped before and
   * after it is dashes and whitespace, and it neither starts nor ends with whitespace.
   */
  lemma TrimWindow(t: String) returns (a: nat, b: nat)
    ensures a <= b <= |t| && Trim(t) == t[a..b]
    ensures forall i :: 0 <= i < a ==> t[i] == '–' || IsSpace(t[i])
    ensures forall i :: b <= i < |t| ==> t[i] == '–' || IsSpace(t[i])
    ensures a < b ==> !IsSpace(t[a]) && !IsSpace(t[b - 1])
  {
    a, b := StripBothEdges(t, {'–'});
  }

  /** Trimming is not idempotent: a dash behind a space survives the first pass. */
  lemma TrimTwice()
    ensures Trim(" –a") == "–a" && Trim("–a") == "a"
  {
    StripCharsUnchanged(" –a", {'–'});
    StripSpaceStep();
    StripDashStep();
    StripNoEdgeSpace("a");
  }

  lemma StripSpaceStep()
    ensures Strip(" –a") == "–a"
  {
    var s := " –a";
    assert IsSpace(s[0]) && !IsSpace(s[1]);
    assert LeadingCount(s[1..], IsSpace) == 0;
    assert TrimLeft(s, IsSpace) == "–a";
    StripNoEdgeSpace("–a");
  }

  lemma StripDashStep()
    ensures StripChars("–a", {'–'}) == "a"
  {
    var s := "–a";
    var f := c => c in {'–'};
    assert f(s[0]) && !f(s[1]);
    assert LeadingCount(s[1..], f) == 0;
    assert TrimLeft(s, f) == "a";
    assert TrailingCount("a", f) == 0;
  }

  /** The links with their titles trimmed. */
  function Trimmed(links: seq<Link>): (r: seq<Link>)
    ensures |r| == |links| && forall j :: 0 <= j < |r| ==> r[j] == Link(links[j].href, Trim(links[j].title))
  {
    seq(|links|, j requires 0 <= j < |links| => Link(links[j].href, Trim(links[j].title)))
  }

  /** The inner loop of `_parse_prev_links`: every title of one date's links trimmed in turn. */
  method TrimTitles(links: seq<Link>) returns (r: seq<Link>)
    ensures r == Trimmed(links)
  {
    r := links;
    for j := 0 to |r|
      invariant |r| == |links|
      invariant forall n :: 0 <= n < j ==> r[n] == Link(links[n].href, Trim(links[n].title))
      invariant forall n :: j <= n < |r| ==> r[n] == links[n]
    {
      r := r[j := Link(r[j].href, Trim(r[j].title))];
    }
  }

  /**
   * `_parse_prev_links`: the mixin's groups, with every link title trimmed in place;
   * dates, their order and the links' order and targets are unchanged.
   */
  method PrevLinks(anchors: seq<Anchor>, join: String -> String) returns (groups: LinkGroups)
    ensures var g := Grouped(anchors, join);
      |groups| == |g| && forall i :: 0 <= i < |g| ==> groups[i] == (g[i].0, Trimmed(g[i].1))
  {
    groups := Authority.PrevLinks(anchors, join);
    ghost var g := groups;
    for i := 0 to |groups|
      invariant |groups| == |g|
      invariant forall m :: 0 <= m < i ==> groups[m] == (g[m].0, Trimmed(g[m].1))
      invariant forall m :: i <= m < |g| ==> groups[m] == g[m]
    {
      var links := TrimTitles(groups[i].1);
      groups := groups[i := (groups[i].0, links)];
    }
  }

  /** After trimming, each date still holds exactly its own links, now trimmed. */
  lemma PrevLinksByDate(anchors: seq<Anchor>, join: String -> String, groups: LinkGroups, i: nat)
    requires var g := Grouped(anchors, join);
      |groups| == |g| && forall m :: 0 <= m < |g| ==> groups[m] == (g[m].0, Trimmed(g[m].1))
    requires i < |groups|
    ensures groups[i].1 == Trimmed(LinksOn(anchors, join, groups[i].0.date))
  {
    GroupedGroup(anchors, join, i);
  }
}
