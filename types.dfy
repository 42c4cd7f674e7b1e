/** The two closed shapes the plugin's type declarations contribute to the
    behaviour: the tag colours the link service accepts, and the way an
    enabled collection is named in the plugin's configuration. */
module DubTypes {
  import opened Common

  /** The `DubColors` object, in its declaration order. */
  datatype Color = Blue | Brown | Green | Pink | Purple | Red | Yellow

  /** The string value of each colour. */
  function ColorValue(c: Color): (v: string)
    ensures |v| > 0
    ensures forall i :: 0 <= i < |v| ==> 'a' <= v[i] <= 'z'
  {
    match c
    case Blue => "blue"
    case Brown => "brown"
    case Green => "green"
    case Pink => "pink"
    case Purple => "purple"
    case Red => "red"
    case Yellow => "yellow"
  }

  /** `Object.values(DubColors)`: insertion order of the object's keys. */
  const AllColors: seq<Color> := [Blue, Brown, Green, Pink, Purple, Red, Yellow]

  /** The colour a string value names, if any. */
  function ParseColor(v: string): (r: Option<Color>)
    ensures r.Some? ==> ColorValue(r.value) == v
    ensures r.None? ==> forall c: Color :: ColorValue(c) != v
  {
    if v == "blue" then Some(Blue)
    else if v == "brown" then Some(Brown)
    else if v == "green" then Some(Green)
    else if v == "pink" then Some(Pink)
    else if v == "purple" then Some(Purple)
    else if v == "red" then Some(Red)
    else if v == "yellow" then Some(Yellow)
    else None
  }

  /** Every colour appears exactly once among the values, and the values are
      pairwise distinct strings. */
  lemma AllColorsEnumerates()
    ensures forall c: Color :: c in AllColors
    ensures forall i, j :: 0 <= i < j < |AllColors| ==> AllColors[i] != AllColors[j]
    ensures forall c, d: Color :: ColorValue(c) == ColorValue(d) ==> c == d
  {
    forall c: Color ensures c in AllColors {
      match c
      case Blue => assert AllColors[0] == c;
      case Brown => assert AllColors[1] == c;
      case Green => assert AllColors[2] == c;
      case Pink => assert AllColors[3] == c;
      case Purple => assert AllColors[4] == c;
      case Red => assert AllColors[5] == c;
      case Yellow => assert AllColors[6] == c;
    }
    forall c, d: Color | ColorValue(c) == ColorValue(d) ensures c == d {
      assert ParseColor(ColorValue(c)) == Some(c);
      assert ParseColor(ColorValue(d)) == Some(d);
    }
  }

  /** An enabled collection: either its slug, or `{docs, slugOverride?}`. */
  datatype DubCollection =
    | SlugRef(slug: string)
    | DocsRef(docs: string, slugOverride: Option<string>)
}
