/**
 * The meeting classifications the spiders assign. They are the constants of the
 * scraper framework; the framework itself is not part of this model.
 */
module Classification {
  datatype Classification = AdvisoryCommittee | Board | CityCouncil | Commission | Committee | Forum | NotClassified
}
