/** Sorting an earthquake's depth (km, signed) into one of the six
    palette colours. */
module DepthColor {
  import opened Palette

  /** Upper bounds of the first five buckets, in km. Each bucket includes
      its upper bound; depths above the last bound take the last colour. */
  const Limits: seq<real> := [10.0, 30.0, 50.0, 70.0, 90.0]

  /** The if/else chain of the classifier, with the lower-bound guards of
      each `else if` kept as written. The source joins the two comparisons
      with `&` on booleans, which is truthy exactly when both hold.
      The result's branch number is the number of bounds strictly below
      the depth: the depth lies at or under the k-th bound exactly when
      its branch is k or earlier. */
  function DepthBucket(depth: real): (c: Color)
    ensures forall k :: 0 <= k < |Limits| ==> (depth <= Limits[k] <==> Index(c) <= k)
  {
    if depth <= 10.0 then Salmon
    else if depth > 10.0 && depth <= 30.0 then Orange
    else if depth > 30.0 && depth <= 50.0 then Scarlet
    else if depth > 50.0 && depth <= 70.0 then Brown
    else if depth > 70.0 && depth <= 90.0 then Navy
    else SeaGreen
  }

  /** The classifier as the map sees it: a colour code. */
  function ChooseColor(depth: real): (hex: string)
    ensures hex in Codes
    ensures FromHex(hex) == Some(DepthBucket(depth))
  {
    HexRoundTrip(DepthBucket(depth));
    ToHex(DepthBucket(depth))
  }

  /** The same classifier as a flat threshold table: the first bound the
      depth does not exceed picks the colour, and a depth above every
      bound takes the last colour. No lower-bound guard is consulted, so
      the guards of the chain are redundant. */
  method ClassifyByTable(depth: real) returns (c: Color)
    ensures c == DepthBucket(depth)
  {
    var i := 0;
    while i < |Limits| && depth > Limits[i]
      invariant 0 <= i <= |Limits|
      invariant forall j :: 0 <= j < i ==> depth > Limits[j]
    {
      i := i + 1;
    }
    c := ByIndex(i);
    var b := DepthBucket(depth);
    if i < |Limits| {
      assert Index(b) <= i;
      if i > 0 {
        assert depth > Limits[i - 1];
      }
    } else {
      assert depth > Limits[|Limits| - 1];
    }
    assert Index(b) == i;
  }

  /** Every depth at or below 10 km, negative depths included, is drawn
      in the first colour: nothing special happens below zero. */
  lemma ShallowIsSalmon(depth: real)
    ensures ChooseColor(depth) == "#F75D59" <==> depth <= 10.0
  {
  }

  /** Each bound belongs to the bucket below it; anything above it
      belongs to the next bucket. */
  lemma Boundaries(eps: real)
    requires eps > 0.0
    ensures ChooseColor(10.0) == "#F75D59" && ChooseColor(10.0 + eps) != "#F75D59"
    ensures ChooseColor(30.0) == "#FFA600" && ChooseColor(30.0 + eps) != "#FFA600"
    ensures ChooseColor(50.0) == "#F53216" && ChooseColor(50.0 + eps) != "#F53216"
    ensures ChooseColor(70.0) == "#622F22" && ChooseColor(70.0 + eps) != "#622F22"
    ensures ChooseColor(90.0) == "#040720" && ChooseColor(90.0 + eps) == "#2E8B57"
    ensures eps <= 20.0 ==>
      && ChooseColor(10.0 + eps) == "#FFA600"
      && ChooseColor(30.0 + eps) == "#F53216"
      && ChooseColor(50.0 + eps) == "#622F22"
      && ChooseColor(70.0 + eps) == "#040720"
  {
  }

  /** Deeper earthquakes never fall into an earlier bucket. */
  lemma Monotone(d1: real, d2: real)
    requires d1 <= d2
    ensures Index(DepthBucket(d1)) <= Index(DepthBucket(d2))
  {
  }

  /** Every colour code of the palette is produced by some depth, so the
      classifier's range is exactly the six codes. */
  lemma Onto(hex: string)
    requires hex in Codes
    ensures exists d :: ChooseColor(d) == hex
  {
    var c := FromHex(hex).value;
    var d := if c == SeaGreen then 100.0 else Limits[Index(c)];
    assert ChooseColor(d) == hex;
  }
}
