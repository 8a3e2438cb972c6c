/** The Detroit Local Emergency Planning Committee spider: the title, description and classification it fixes. */
module EmergencyPlanning {
  import opened Text
  import opened Classification

  /** The title the city calendar gives, replaced by the agency's name when it mentions "committee" in any case. */
  function Title(calendarTitle: String): (r: String)
    ensures Contains(Lower(calendarTitle), "committee") ==> r == "Local Emergency Planning Committee"
    ensures !Contains(Lower(calendarTitle), "committee") ==> r == calendarTitle
  {
    if !Contains(Lower(calendarTitle), "committee") then calendarTitle else "Local Emergency Planning Committee"
  }

  /** The fixed title mentions the word itself, so fixing a title twice changes nothing more. */
  lemma TitleIdempotent(calendarTitle: String)
    ensures Title(Title(calendarTitle)) == Title(calendarTitle)
  {
    if Contains(Lower(calendarTitle), "committee") {
      assert OccursAt(Lower("Local Emergency Planning Committee"), "committee", 25);
    }
  }

  /** `_parse_description` */
  const Description: String := ""

  /** `_parse_classification` */
  const MeetingClassification := AdvisoryCommittee
}
