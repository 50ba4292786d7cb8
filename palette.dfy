/**
 * The pastel palette of the splash generator (`KAWAII_COLORS`) and the
 * lookup that picks the primary colour of the generated script.
 */
module Palette {

  /** A colour as red, green, blue and alpha fractions. */
  datatype Rgba = Rgba(r: real, g: real, b: real, a: real)
  {
    /** Every channel is a fraction in [0, 1]. */
    predicate InUnitRange()
    {
      0.0 <= r <= 1.0 && 0.0 <= g <= 1.0 && 0.0 <= b <= 1.0 && 0.0 <= a <= 1.0
    }
  }

  const Pink := Rgba(1.0, 0.7, 0.8, 1.0)
  const Purple := Rgba(0.8, 0.6, 1.0, 1.0)
  const Blue := Rgba(0.7, 0.9, 1.0, 1.0)
  const Mint := Rgba(0.7, 1.0, 0.9, 1.0)
  const Peach := Rgba(1.0, 0.9, 0.7, 1.0)
  const White := Rgba(1.0, 1.0, 1.0, 0.8)
  const Dark := Rgba(0.2, 0.1, 0.3, 0.9)

  /** The palette table, keyed by colour-scheme name. */
  const KawaiiColors: map<string, Rgba> := map[
    "pink" := Pink, "purple" := Purple, "blue" := Blue, "mint" := Mint,
    "peach" := Peach, "white" := White, "dark" := Dark]

  /** The seven scheme names the palette knows. */
  const SchemeNames: set<string> := {"pink", "purple", "blue", "mint", "peach", "white", "dark"}

  /**
   * The primary colour for a scheme name: the table's entry for a known
   * name, pink for any other name.
   */
  function Lookup(scheme: string): (c: Rgba)
    ensures c.InUnitRange()
    ensures scheme !in SchemeNames ==> c == Pink
    ensures scheme in SchemeNames ==> c == KawaiiColors[scheme]
  {
    if scheme in KawaiiColors then KawaiiColors[scheme] else Pink
  }

  /** The table holds exactly the seven listed quadruples. */
  lemma PaletteTable()
    ensures KawaiiColors.Keys == SchemeNames
    ensures Lookup("pink") == Rgba(1.0, 0.7, 0.8, 1.0)
    ensures Lookup("purple") == Rgba(0.8, 0.6, 1.0, 1.0)
    ensures Lookup("blue") == Rgba(0.7, 0.9, 1.0, 1.0)
    ensures Lookup("mint") == Rgba(0.7, 1.0, 0.9, 1.0)
    ensures Lookup("peach") == Rgba(1.0, 0.9, 0.7, 1.0)
    ensures Lookup("white") == Rgba(1.0, 1.0, 1.0, 0.8)
    ensures Lookup("dark") == Rgba(0.2, 0.1, 0.3, 0.9)
  {
  }
}
