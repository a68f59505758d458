/** The trust-score gauge: the colour of the ring and the four-category
    breakdown shown beside it or in a tooltip.  Both are step functions of
    the score with the same two thresholds, 90 and 60. */
module TrustScoreGauge {
  import opened Common

  /** The three bands the thresholds cut the score into. */
  datatype Tier = High | Mid | Low

  function TierOf(score: int): (t: Tier)
    ensures t == High <==> score >= 90
    ensures t == Mid <==> 60 <= score < 90
    ensures t == Low <==> score < 60
  {
    if score >= 90 then High else if score >= 60 then Mid else Low
  }

  function TierRank(t: Tier): nat
  {
    match t
    case Low => 0
    case Mid => 1
    case High => 2
  }

  /** `getScoreColor`: green from 90, yellow from 60, red below. */
  function ScoreColor(score: int): (c: string)
    ensures c == "#2ECC71" <==> score >= 90
    ensures c == "#F1C40F" <==> 60 <= score < 90
    ensures c == "#E74C3C" <==> score < 60
  {
    if score >= 90 then "#2ECC71"
    else if score >= 60 then "#F1C40F"
    else "#E74C3C"
  }

  /** The four categories, in the order the breakdown lists them. */
  datatype Category = HealthTesting | PedigreeVerification | BreederHistory | CommunityReviews
  {
    function Name(): string
    {
      match this
      case HealthTesting => "Health Testing"
      case PedigreeVerification => "Pedigree Verification"
      case BreederHistory => "Breeder History"
      case CommunityReviews => "Community Reviews"
    }

    function Weight(): nat
    {
      match this
      case HealthTesting => 40
      case PedigreeVerification => 25
      case BreederHistory => 20
      case CommunityReviews => 15
    }

    /** The points shown for this category in each band. */
    function PointsIn(t: Tier): nat
    {
      match (this, t)
      case (HealthTesting, High) => 38
      case (HealthTesting, Mid) => 32
      case (HealthTesting, Low) => 20
      case (PedigreeVerification, High) => 24
      case (PedigreeVerification, Mid) => 20
      case (PedigreeVerification, Low) => 15
      case (BreederHistory, High) => 19
      case (BreederHistory, Mid) => 15
      case (BreederHistory, Low) => 10
      case (CommunityReviews, High) => 13
      case (CommunityReviews, Mid) => 10
      case (CommunityReviews, Low) => 5
    }
  }

  const Categories: seq<Category> := [HealthTesting, PedigreeVerification, BreederHistory, CommunityReviews]

  /** One line of the breakdown: "category  points/weight". */
  datatype Row = Row(category: string, points: nat, weight: nat)

  /** The `breakdown` table for a score.  Every category earns at most its
      weight and at least a third of it. */
  function Breakdown(score: int): (rows: seq<Row>)
    ensures |rows| == 4
    ensures forall i :: 0 <= i < 4 ==>
              && rows[i].category == Categories[i].Name()
              && rows[i].weight == Categories[i].Weight()
              && 3 * rows[i].points >= rows[i].weight
              && rows[i].points <= rows[i].weight
  {
    seq(4, i requires 0 <= i < 4 =>
      Row(Categories[i].Name(), Categories[i].PointsIn(TierOf(score)), Categories[i].Weight()))
  }

  function SumWeights(rows: seq<Row>): nat
  {
    if rows == [] then 0 else rows[0].weight + SumWeights(rows[1..])
  }

  function SumPoints(rows: seq<Row>): nat
  {
    if rows == [] then 0 else rows[0].points + SumPoints(rows[1..])
  }

  lemma {:induction false} SumOfFour(rows: seq<Row>)
    requires |rows| == 4
    ensures SumWeights(rows) == rows[0].weight + rows[1].weight + rows[2].weight + rows[3].weight
    ensures SumPoints(rows) == rows[0].points + rows[1].points + rows[2].points + rows[3].points
  {
    var r1 := rows[1..];
    var r2 := r1[1..];
    var r3 := r2[1..];
    assert r3[1..] == [];
    assert r1[0] == rows[1] && r2[0] == rows[2] && r3[0] == rows[3];
    assert SumWeights(r3) == rows[3].weight && SumPoints(r3) == rows[3].points;
    assert SumWeights(r2) == rows[2].weight + SumWeights(r3) && SumPoints(r2) == rows[2].points + SumPoints(r3);
    assert SumWeights(r1) == rows[1].weight + SumWeights(r2) && SumPoints(r1) == rows[1].points + SumPoints(r2);
  }

  /** The weights always add up to 100. */
  lemma WeightsSumTo100(score: int)
    ensures SumWeights(Breakdown(score)) == 100
  {
    SumOfFour(Breakdown(score));
  }

  /** The total is 94, 77 or 50 according to the band, not the score itself. */
  lemma TotalIsStep(score: int)
    ensures SumPoints(Breakdown(score)) == (if score >= 90 then 94 else if score >= 60 then 77 else 50)
  {
    var rows := Breakdown(score);
    SumOfFour(rows);
    assert forall i :: 0 <= i < 4 ==> rows[i].points == Categories[i].PointsIn(TierOf(score));
  }

  /** A higher score never shows fewer points in any category. */
  lemma PointsMonotone(a: int, b: int, i: nat)
    requires a <= b && i < 4
    ensures Breakdown(a)[i].points <= Breakdown(b)[i].points
  {
    assert TierRank(TierOf(a)) <= TierRank(TierOf(b));
  }

  /** The colour and the breakdown use the same thresholds: two scores share
      a colour exactly when they share a breakdown. */
  lemma ColorMatchesBreakdown(a: int, b: int)
    ensures ScoreColor(a) == ScoreColor(b) <==> Breakdown(a) == Breakdown(b)
  {
    if Breakdown(a) == Breakdown(b) {
      assert Breakdown(a)[0].points == Breakdown(b)[0].points;
    }
  }

  /** What the component returns: the bare gauge, or the gauge wrapped in a
      tooltip listing the breakdown. */
  datatype View =
    | Bare(color: string)
    | WithTooltip(color: string, title: string, rows: seq<Row>)

  /** The prop as the caller passes it: None when it is omitted, in which
      case the parameter's default, false, applies. */
  function ShowBreakdownValue(showBreakdown: Option<bool>): bool
  {
    match showBreakdown
    case None => false
    case Some(b) => b
  }

  function Render(score: int, showBreakdown: Option<bool>): (v: View)
    ensures v.WithTooltip? <==> showBreakdown != Some(true)
    ensures v.color == ScoreColor(score)
    ensures v.WithTooltip? ==> v.rows == Breakdown(score) && v.title == "Trust Score Breakdown"
  {
    if !ShowBreakdownValue(showBreakdown) then
      WithTooltip(ScoreColor(score), "Trust Score Breakdown", Breakdown(score))
    else Bare(ScoreColor(score))
  }

  /** Omitting showBreakdown renders exactly what passing false renders: the
      gauge wrapped in the tooltip with the score's breakdown. */
  lemma DefaultHasTooltip(score: int)
    ensures Render(score, None) == Render(score, Some(false))
    ensures Render(score, None) == WithTooltip(ScoreColor(score), "Trust Score Breakdown", Breakdown(score))
  {
  }
}
