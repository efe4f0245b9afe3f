/** The `ComparablesTable` component: one table row per comparable company, with the
    similarity badge coloured by score band. */
module ComparablesTable {
  import opened ResearchTypes

  const GreenClass: string := "bg-green-100 text-green-800 dark:bg-green-900 dark:text-green-200"
  const YellowClass: string := "bg-yellow-100 text-yellow-800 dark:bg-yellow-900 dark:text-yellow-200"
  const OrangeClass: string := "bg-orange-100 text-orange-800 dark:bg-orange-900 dark:text-orange-200"

  /** The three colours of the similarity badge, from the weakest match to the strongest. */
  datatype Band = Orange | Yellow | Green

  function Rank(b: Band): nat {
    match b
    case Orange => 0
    case Yellow => 1
    case Green => 2
  }

  /** The band of a similarity score: green from 80, yellow from 60, orange below. */
  function ScoreBand(score: int): (b: Band)
    ensures b == Green <==> score >= 80
    ensures b == Yellow <==> 60 <= score < 80
    ensures b == Orange <==> score < 60
  {
    if score >= 80 then Green
    else if score >= 60 then Yellow
    else Orange
  }

  function BandClass(b: Band): string {
    match b
    case Green => GreenClass
    case Yellow => YellowClass
    case Orange => OrangeClass
  }

  /** `getScoreColor`: the badge classes for a score. */
  function ScoreColor(score: int): (c: string)
    ensures score >= 80 ==> c == GreenClass
    ensures 60 <= score < 80 ==> c == YellowClass
    ensures score < 60 ==> c == OrangeClass
  {
    BandClass(ScoreBand(score))
  }

  /** One rendered row: its React key, the cells in column order, and the badge classes. */
  datatype Row = Row(
    key: nat,
    companyName: string,
    ticker: string,
    similarityScore: int,
    badgeClass: string,
    marketCap: string,
    peRatio: string,
    reasoning: string)

  function RowOf(c: ComparableCompany, index: nat): Row {
    Row(index, c.companyName, c.ticker, c.similarityScore, ScoreColor(c.similarityScore),
      c.keyMetrics.marketCap, c.keyMetrics.peRatio, c.reasoning)
  }

  /** The rows for `comps`, keyed from `start`: one per comparable, in order, whatever the
      number of comparables. */
  function RowsFrom(comps: seq<ComparableCompany>, start: nat): (rows: seq<Row>)
    ensures |rows| == |comps|
    ensures forall i :: 0 <= i < |comps| ==> rows[i] == RowOf(comps[i], start + i)
    decreases |comps|
  {
    if comps == [] then [] else [RowOf(comps[0], start)] + RowsFrom(comps[1..], start + 1)
  }

  /** The body of the table: `comparables.map((comp, idx) => …)`. */
  function Rows(comps: seq<ComparableCompany>): seq<Row> {
    RowsFrom(comps, 0)
  }

  /** Banding is monotone in the score. */
  lemma BandMonotone(a: int, b: int)
    requires a <= b
    ensures Rank(ScoreBand(a)) <= Rank(ScoreBand(b))
  {
  }

  /** Two scores get the same badge classes exactly when they fall in the same band. */
  lemma SameColorSameBand(a: int, b: int)
    ensures ScoreColor(a) == ScoreColor(b) <==> ScoreBand(a) == ScoreBand(b)
  {
    assert |GreenClass| < |YellowClass| == |OrangeClass|;
    assert YellowClass[|YellowClass| - 5] == 'w' && OrangeClass[|OrangeClass| - 5] == 'e';
  }

  /** Row `i` shows comparable `i`, with key `i`, and the keys are pairwise distinct. */
  lemma RowsMatchComparables(comps: seq<ComparableCompany>)
    ensures |Rows(comps)| == |comps|
    ensures forall i :: 0 <= i < |comps| ==> var c := comps[i];
      Rows(comps)[i] == Row(i, c.companyName, c.ticker, c.similarityScore, ScoreColor(c.similarityScore),
        c.keyMetrics.marketCap, c.keyMetrics.peRatio, c.reasoning)
    ensures forall i, j :: 0 <= i < j < |comps| ==> Rows(comps)[i].key != Rows(comps)[j].key
  {
  }

  /** The table of a list is the table of its first part followed by that of the rest, keys
      continuing. */
  lemma {:induction false} RowsAppend(a: seq<ComparableCompany>, b: seq<ComparableCompany>, start: nat)
    ensures RowsFrom(a + b, start) == RowsFrom(a, start) + RowsFrom(b, start + |a|)
    decreases |a|
  {
    if a == [] {
      assert a + b == b;
    } else {
      assert (a + b)[1..] == a[1..] + b;
      RowsAppend(a[1..], b, start + 1);
    }
  }
}
