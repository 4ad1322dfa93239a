/** The fixed six-colour palette of the earthquake markers, and the
    colour codes the map library receives for each of them. */
module Palette {

  datatype Option<+T> = None | Some(value: T)

  /** The marker colours, listed in the order the depth classifier tests
      its branches: shallowest bucket first, deepest last. */
  datatype Color = Salmon | Orange | Scarlet | Brown | Navy | SeaGreen

  /** Number of colours in the palette. */
  const Size: nat := 6

  /** The colour code handed to the map library. */
  function ToHex(c: Color): (hex: string)
    ensures |hex| == 7 && hex[0] == '#'
    ensures hex in Codes
  {
    match c
    case Salmon => "#F75D59"
    case Orange => "#FFA600"
    case Scarlet => "#F53216"
    case Brown => "#622F22"
    case Navy => "#040720"
    case SeaGreen => "#2E8B57"
  }

  /** The six colour codes the classifier can ever produce. */
  const Codes: set<string> :=
    {"#F75D59", "#FFA600", "#F53216", "#622F22", "#040720", "#2E8B57"}

  /** Reads a colour code back into the palette; codes outside the
      palette have no colour. */
  function FromHex(hex: string): (c: Option<Color>)
    ensures c.Some? <==> hex in Codes
    ensures c.Some? ==> ToHex(c.value) == hex
  {
    if hex == "#F75D59" then Some(Salmon)
    else if hex == "#FFA600" then Some(Orange)
    else if hex == "#F53216" then Some(Scarlet)
    else if hex == "#622F22" then Some(Brown)
    else if hex == "#040720" then Some(Navy)
    else if hex == "#2E8B57" then Some(SeaGreen)
    else None
  }

  lemma HexRoundTrip(c: Color)
    ensures FromHex(ToHex(c)) == Some(c)
  {
  }

  /** Distinct colours have distinct codes, so the palette has exactly
      six codes. */
  lemma ToHexInjective(a: Color, b: Color)
    ensures ToHex(a) == ToHex(b) <==> a == b
  {
  }

  /** Position of a colour's branch in the classifier's if/else chain,
      counting from 0. */
  function Index(c: Color): (i: nat)
    ensures i < Size
    ensures ByIndex(i) == c
  {
    match c
    case Salmon => 0
    case Orange => 1
    case Scarlet => 2
    case Brown => 3
    case Navy => 4
    case SeaGreen => 5
  }

  /** The colour of the i-th branch of the classifier. */
  function ByIndex(i: nat): (c: Color)
    requires i < Size
  {
    if i == 0 then Salmon
    else if i == 1 then Orange
    else if i == 2 then Scarlet
    else if i == 3 then Brown
    else if i == 4 then Navy
    else SeaGreen
  }
}
