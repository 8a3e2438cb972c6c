/** The Detroit Board of Ethics spider: the title, description and classification it fixes. */
module BoardEthics {
  import opened Text
  import opened Classification

  /** The title the city calendar gives, replaced by the agency's name when it mentions "board" in any case. */
  function Title(calendarTitle: String): (r: String)
    ensures Contains(Lower(calendarTitle), "board") ==> r == "Board of Ethics"
    ensures !Contains(Lower(calendarTitle), "board") ==> r == calendarTitle
  {
    if !Contains(Lower(calendarTitle), "board") then calendarTitle else "Board of Ethics"
  }

  /** The fixed title mentions the word itself, so fixing a title twice changes nothing more. */
  lemma TitleIdempotent(calendarTitle: String)
    ensures Title(Title(calendarTitle)) == Title(calendarTitle)
  {
    if Contains(Lower(calendarTitle), "board") {
      assert OccursAt(Lower("Board of Ethics"), "board", 0);
    }
  }

  /** `_parse_description` */
  const Description: String := ""

  /** `_parse_classification` */
  const MeetingClassification := Board
}
