/** The Detroit Entertainment Commission spider: the title, description and classification it fixes. */
module EntertainmentCommission {
  import opened Text
  import opened Classification

  /** The title the city calendar gives, replaced by the agency's name when it mentions "commission" in any case. */
  function Title(calendarTitle: String): (r: String)
    ensures Contains(Lower(calendarTitle), "commission") ==> r == "Entertainment Commission"
    ensures !Contains(Lower(calendarTitle), "commission") ==> r == calendarTitle
  {
    if !Contains(Lower(calendarTitle), "commission") then calendarTitle else "Entertainment Commission"
  }

  /** The fixed title mentions the word itself, so fixing a title twice changes nothing more. */
  lemma TitleIdempotent(calendarTitle: String)
    ensures Title(Title(calendarTitle)) == Title(calendarTitle)
  {
    if Contains(Lower(calendarTitle), "commission") {
      assert OccursAt(Lower("Entertainment Commission"), "commission", 14);
    }
  }

  /** `_parse_description` */
  const Description: String := ""

  /** `_parse_classification` */
  const MeetingClassification := Commission
}
