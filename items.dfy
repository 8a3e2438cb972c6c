/** The parts of a meeting item the spiders hand on: its location and its document links. */
module Items {
  import opened Text

  /** A meeting's `location` dictionary. */
  datatype Place = Place(name: String, address: String)

  /** One entry of a meeting's `links` list. */
  datatype Link = Link(href: String, title: String)
}
