/** The legend's data: six rows, each a colour swatch beside a labelled
    depth range. Only the data is modelled, not the HTML built from it. */
module Legend {
  import opened Palette
  import opened DepthColor

  /** Lower end of the depth range each row labels, in km. */
  const RowLimits: seq<real> := [-10.0, 10.0, 30.0, 50.0, 70.0, 90.0]

  const RowLabels: seq<string> := ["-10-10", "10-30", "30-50", "50-70", "70-90", "90+"]

  /** The swatch colours in the order the legend script lists them. */
  const ColorsAsWritten: seq<string> :=
    ["#2E8B57", "#F75D59", "#FFA600", "#F53216", "#622F22", "#040720"]

  /** The swatch colours in the classifier's branch order. */
  const Colors: seq<string> := seq(Size, i requires 0 <= i < Size => ToHex(ByIndex(i)))

  /** Whether a depth lies in the range the i-th row labels: above the
      row's own limit and, except on the last row, at or below the next. */
  predicate InRow(i: nat, depth: real)
    requires i < |RowLimits|
  {
    RowLimits[i] < depth && (i == |RowLimits| - 1 || depth <= RowLimits[i + 1])
  }

  /** A legend agrees with the classifier when each row's swatch is the
      colour every depth of the row's labelled range is drawn in. */
  ghost predicate Agrees(colors: seq<string>)
  {
    && |colors| == |RowLimits|
    && forall i: nat, d: real :: i < |RowLimits| && InRow(i, d) ==> ChooseColor(d) == colors[i]
  }

  /** As written, no row's swatch matches its range: every depth a row
      labels is drawn in a colour other than that row's swatch. */
  lemma AsWrittenRowsMismatch(i: nat, depth: real)
    requires i < |RowLimits| && InRow(i, depth)
    ensures ChooseColor(depth) != ColorsAsWritten[i]
  {
  }

  /** A concrete mismatch: a 0 km event is drawn in the first colour,
      while the "-10-10" row shows the colour of events deeper than 90 km. */
  lemma AsWrittenDisagrees()
    ensures InRow(0, 0.0) && RowLabels[0] == "-10-10"
    ensures ChooseColor(0.0) == "#F75D59" && ColorsAsWritten[0] == "#2E8B57"
    ensures !Agrees(ColorsAsWritten)
  {
  }

  /** The written swatch list is the classifier's list rotated by one:
      the deepest colour was moved to the front. */
  lemma AsWrittenIsRotation()
    ensures ColorsAsWritten == [Colors[Size - 1]] + Colors[..Size - 1]
  {
  }

  /** With the swatches in branch order, every row agrees with the
      classifier. */
  lemma CorrectedAgrees()
    ensures Agrees(Colors)
  {
  }
}
