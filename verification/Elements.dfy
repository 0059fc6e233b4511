/** The elements and what each of them beats: a natural ring, and a spiritual triangle. */
module Elements {
  datatype Element = Neutral | Flame | Tide | Leaf | Earth | Lightning | Holy | Dark | Shadow

  predicate Beats(a: Element, b: Element) {
    match a
    case Flame => b.Leaf? || b.Earth?
    case Leaf => b.Tide? || b.Lightning?
    case Tide => b.Flame? || b.Earth?
    case Earth => b.Leaf? || b.Lightning?
    case Lightning => b.Tide? || b.Flame?
    case Holy => b.Dark?
    case Dark => b.Shadow?
    case Shadow => b.Holy?
    case Neutral => false
  }
}
