/**
 * The evaluator's feedback history page of a group-discussion session:
 * per-category and overall average ratings over the session's evaluation
 * records, the four-slice chart series built from them, and the role guard
 * that decides whether the report is shown at all.
 *
 * Scores are whole numbers of tenths (8.5 is 85): every rating the page
 * shows has one decimal. JavaScript's `Number.prototype.toFixed(1)` followed
 * by `parseFloat` becomes `RoundedMean`, which rounds half up to the nearest
 * tenth, and the NaN that a division by an empty count yields is the explicit
 * `NaN` value of `Average`.
 */
module FeedbackHistory {

  datatype Option<T> = None | Some(value: T)

  /** The four scores an evaluator gives and the self-reported overall
      score, all in tenths. */
  datatype Ratings = Ratings(
    communication: nat,
    confidence: nat,
    reasoning: nat,
    engagement: nat,
    overall: nat)

  /** One evaluator's feedback for one participant. */
  datatype Evaluation = Evaluation(
    participantId: string,
    participantName: string,
    ratings: Ratings,
    notes: string,
    submittedAt: string)

  /** The feedback record of one session, as the page loads it. */
  datatype SessionFeedback = SessionFeedback(
    sessionId: string,
    sessionTitle: string,
    sessionTopic: string,
    sessionType: string,
    date: string,
    duration: nat,
    moderatorName: string,
    moderatorId: string,
    participantCount: nat,
    evaluations: seq<Evaluation>,
    sessionNotes: string)

  /** The four rated categories; `overall` is not one of them. */
  datatype Category = Communication | Confidence | Reasoning | Engagement

  /** The categories in the order the page lists them. */
  const Categories: seq<Category> := [Communication, Confidence, Reasoning, Engagement]

  function Score(r: Ratings, c: Category): nat
  {
    match c
    case Communication => r.communication
    case Confidence => r.confidence
    case Reasoning => r.reasoning
    case Engagement => r.engagement
  }

  /** The running totals object, one field per category. */
  datatype Totals = Totals(communication: nat, confidence: nat, reasoning: nat, engagement: nat)

  /** A displayed average: a number of tenths, or the NaN of an empty division. */
  datatype Average = NaN | Tenths(value: nat)

  /** What the averaging returns: one average per category and `overall`. */
  datatype AverageRatings = AverageRatings(
    communication: Average,
    confidence: Average,
    reasoning: Average,
    engagement: Average,
    overall: Average)

  function AverageFor(a: AverageRatings, c: Category): Average
  {
    match c
    case Communication => a.communication
    case Confidence => a.confidence
    case Reasoning => a.reasoning
    case Engagement => a.engagement
  }

  // ---------------------------------------------------------------------
  // Specification of the totals loop
  // ---------------------------------------------------------------------

  /** The sum of category `c` over `evals`, adding the records in list order. */
  function CategoryTotal(evals: seq<Evaluation>, c: Category): nat
    decreases |evals|
  {
    if evals == [] then 0
    else CategoryTotal(evals[..|evals| - 1], c) + Score(evals[|evals| - 1].ratings, c)
  }

  function TotalsOf(evals: seq<Evaluation>): Totals
  {
    Totals(
      CategoryTotal(evals, Communication),
      CategoryTotal(evals, Confidence),
      CategoryTotal(evals, Reasoning),
      CategoryTotal(evals, Engagement))
  }

  /** Adding one more record adds its four scores to the totals. */
  lemma TotalsOfSnoc(evals: seq<Evaluation>, e: Evaluation)
    ensures TotalsOf(evals + [e]) == Totals(
      TotalsOf(evals).communication + e.ratings.communication,
      TotalsOf(evals).confidence + e.ratings.confidence,
      TotalsOf(evals).reasoning + e.ratings.reasoning,
      TotalsOf(evals).engagement + e.ratings.engagement)
  {
    assert (evals + [e])[..|evals|] == evals;
  }

  // ---------------------------------------------------------------------
  // Division and one-decimal rounding
  // ---------------------------------------------------------------------

  /** `parseFloat((total / count).toFixed(1))` on a total of tenths: the
      exact mean rounded to the nearest tenth, a tie going up; NaN when the
      count is zero. The second ensures is the definition of the nearest
      tenth: the exact mean `total / count` lies in `[r - 1/2, r + 1/2)`. */
  function RoundedMean(total: nat, count: nat): (r: Average)
    ensures r.NaN? <==> count == 0
    ensures r.Tenths? ==>
      2 * r.value * count <= 2 * total + count < 2 * r.value * count + 2 * count
  {
    if count == 0 then NaN
    else
      var q := (2 * total + count) / (2 * count);
      DivisionBounds(2 * total + count, 2 * count);
      assert 2 * q * count == q * (2 * count);
      Tenths(q)
  }

  lemma DivisionBounds(a: nat, b: nat)
    requires b > 0
    ensures (a / b) * b <= a < (a / b) * b + b
  {
  }

  /** Only one tenth lies in that window, so it pins down the rounding. */
  lemma RoundedMeanIsUnique(total: nat, count: nat, v: nat)
    requires count > 0
    requires 2 * v * count <= 2 * total + count < 2 * v * count + 2 * count
    ensures RoundedMean(total, count) == Tenths(v)
  {
    var r := RoundedMean(total, count).value;
    if r < v {
      MultiplyMonotone(r + 1, v, 2 * count);
      assert false;
    } else if v < r {
      MultiplyMonotone(v + 1, r, 2 * count);
      assert false;
    }
  }

  lemma MultiplyMonotone(x: nat, y: nat, k: nat)
    requires x <= y
    ensures x * k <= y * k
  {
  }

  /** A mean of values that all lie in `[lo, hi]` rounds into `[lo, hi]`. */
  lemma RoundedMeanWithin(total: nat, count: nat, lo: nat, hi: nat)
    requires count > 0
    requires count * lo <= total <= count * hi
    ensures lo <= RoundedMean(total, count).value <= hi
  {
    var r := RoundedMean(total, count).value;
    if r < lo {
      MultiplyMonotone(r + 1, lo, 2 * count);
      assert false;
    }
    if hi < r {
      MultiplyMonotone(hi + 1, r, 2 * count);
      assert false;
    }
  }

  /** The object the page builds from the totals and the record count. */
  function AveragesFromTotals(t: Totals, count: nat): AverageRatings
  {
    AverageRatings(
      RoundedMean(t.communication, count),
      RoundedMean(t.confidence, count),
      RoundedMean(t.reasoning, count),
      RoundedMean(t.engagement, count),
      RoundedMean(t.communication + t.confidence + t.reasoning + t.engagement, count * 4))
  }

  /** The sum of all four category totals: every category score of every record. */
  function GrandTotal(evals: seq<Evaluation>): nat
  {
    CategoryTotal(evals, Communication) + CategoryTotal(evals, Confidence)
      + CategoryTotal(evals, Reasoning) + CategoryTotal(evals, Engagement)
  }

  /** What `getAverageRatings` returns for a list of evaluations. */
  function AverageRatingsOf(evals: seq<Evaluation>): AverageRatings
  {
    AveragesFromTotals(TotalsOf(evals), |evals|)
  }

  // ---------------------------------------------------------------------
  // The averaging as the page runs it
  // ---------------------------------------------------------------------

  /** `getAverageRatings`: add every record's four scores into a totals
      record, then divide each total by the count and round. */
  method GetAverageRatings(evaluations: seq<Evaluation>) returns (averages: AverageRatings)
    ensures averages == AverageRatingsOf(evaluations)
  {
    var totals := Totals(0, 0, 0, 0);
    for i := 0 to |evaluations|
      invariant totals == TotalsOf(evaluations[..i])
    {
      var evaluation := evaluations[i];
      assert evaluations[..i + 1][..i] == evaluations[..i];
      totals := totals.(communication := totals.communication + evaluation.ratings.communication);
      totals := totals.(confidence := totals.confidence + evaluation.ratings.confidence);
      totals := totals.(reasoning := totals.reasoning + evaluation.ratings.reasoning);
      totals := totals.(engagement := totals.engagement + evaluation.ratings.engagement);
    }
    assert evaluations[..|evaluations|] == evaluations;
    var count := |evaluations|;
    averages := AveragesFromTotals(totals, count);
  }

  // ---------------------------------------------------------------------
  // Properties of the averages
  // ---------------------------------------------------------------------

  /** Each category average is the category's exact mean rounded to the
      nearest tenth (so within 0.05 of it), and NaN exactly when there is
      no record. */
  lemma CategoryAverageIsRoundedMean(evals: seq<Evaluation>, c: Category)
    ensures AverageFor(AverageRatingsOf(evals), c).NaN? <==> evals == []
    ensures var a := AverageFor(AverageRatingsOf(evals), c);
      a.Tenths? ==>
        2 * a.value * |evals| <= 2 * CategoryTotal(evals, c) + |evals|
        < 2 * a.value * |evals| + 2 * |evals|
  {
  }

  /** `overall` is the grand mean of all `4 * count` category scores, rounded
      to the nearest tenth; NaN exactly when there is no record. */
  lemma OverallIsGrandMean(evals: seq<Evaluation>)
    ensures AverageRatingsOf(evals).overall.NaN? <==> evals == []
    ensures var o := AverageRatingsOf(evals).overall;
      o.Tenths? ==>
        2 * o.value * (4 * |evals|) <= 2 * GrandTotal(evals) + 4 * |evals|
        < 2 * o.value * (4 * |evals|) + 8 * |evals|
  {
    assert |evals| * 4 == 4 * |evals|;
  }

  /** With no evaluation every field of the result is NaN, as `0 / 0` is in
      the page; with at least one, none is. */
  lemma EmptyListGivesNaN(evals: seq<Evaluation>)
    ensures evals == [] ==> AverageRatingsOf(evals) == AverageRatings(NaN, NaN, NaN, NaN, NaN)
    ensures evals != [] ==>
      forall c :: AverageFor(AverageRatingsOf(evals), c).Tenths?
    ensures evals != [] ==> AverageRatingsOf(evals).overall.Tenths?
  {
  }

  lemma {:induction false} CategoryTotalBounds(evals: seq<Evaluation>, c: Category, lo: nat, hi: nat)
    requires forall i :: 0 <= i < |evals| ==> lo <= Score(evals[i].ratings, c) <= hi
    ensures |evals| * lo <= CategoryTotal(evals, c) <= |evals| * hi
    decreases |evals|
  {
    if evals != [] {
      var prefix := evals[..|evals| - 1];
      assert forall i :: 0 <= i < |prefix| ==> prefix[i] == evals[i];
      CategoryTotalBounds(prefix, c, lo, hi);
      MultiplySucc(|prefix|, lo);
      MultiplySucc(|prefix|, hi);
    }
  }

  lemma MultiplySucc(m: nat, x: nat)
    ensures (m + 1) * x == m * x + x
  {
  }

  /** If every score of category `c` lies in `[lo, hi]`, so does its average. */
  lemma CategoryAverageWithinBounds(evals: seq<Evaluation>, c: Category, lo: nat, hi: nat)
    requires forall i :: 0 <= i < |evals| ==> lo <= Score(evals[i].ratings, c) <= hi
    ensures evals != [] ==> lo <= AverageFor(AverageRatingsOf(evals), c).value <= hi
  {
    if evals != [] {
      CategoryTotalBounds(evals, c, lo, hi);
      RoundedMeanWithin(CategoryTotal(evals, c), |evals|, lo, hi);
    }
  }

  /** If every score of every category lies in `[lo, hi]`, so does `overall`. */
  lemma OverallWithinBounds(evals: seq<Evaluation>, lo: nat, hi: nat)
    requires forall i, c :: 0 <= i < |evals| ==> lo <= Score(evals[i].ratings, c) <= hi
    ensures evals != [] ==> lo <= AverageRatingsOf(evals).overall.value <= hi
  {
    if evals != [] {
      var n := |evals|;
      CategoryTotalBounds(evals, Communication, lo, hi);
      CategoryTotalBounds(evals, Confidence, lo, hi);
      CategoryTotalBounds(evals, Reasoning, lo, hi);
      CategoryTotalBounds(evals, Engagement, lo, hi);
      ScaleByFour(n, lo);
      ScaleByFour(n, hi);
      RoundedMeanWithin(GrandTotal(evals), n * 4, lo, hi);
    }
  }

  lemma ScaleByFour(n: nat, x: nat)
    ensures (n * 4) * x == n * x + n * x + n * x + n * x
  {
  }

  lemma {:induction false} CategoryTotalAppend(a: seq<Evaluation>, b: seq<Evaluation>, c: Category)
    ensures CategoryTotal(a + b, c) == CategoryTotal(a, c) + CategoryTotal(b, c)
    decreases |b|
  {
    if b == [] {
      assert a + b == a;
    } else {
      var front := b[..|b| - 1];
      assert (a + b)[..|a + b| - 1] == a + front;
      CategoryTotalAppend(a, front, c);
    }
  }

  /** Taking the record at `j` out of the list takes its score out of the total. */
  lemma CategoryTotalRemove(b: seq<Evaluation>, j: nat, c: Category)
    requires j < |b|
    ensures CategoryTotal(b, c) == CategoryTotal(b[..j] + b[j + 1..], c) + Score(b[j].ratings, c)
  {
    assert b == b[..j] + [b[j]] + b[j + 1..];
    assert [b[j]][..0] == [];
    CategoryTotalAppend(b[..j], [b[j]], c);
    CategoryTotalAppend(b[..j] + [b[j]], b[j + 1..], c);
    CategoryTotalAppend(b[..j], b[j + 1..], c);
  }

  /** Taking the last record of `a` and an equal record of `b` out of two
      permutations of each other leaves two permutations of each other. */
  lemma MultisetRemoveMatching(a: seq<Evaluation>, b: seq<Evaluation>, j: nat)
    requires multiset(a) == multiset(b)
    requires a != [] && j < |b| && b[j] == a[|a| - 1]
    ensures multiset(a[..|a| - 1]) == multiset(b[..j] + b[j + 1..])
  {
    var x := b[j];
    assert a == a[..|a| - 1] + [x];
    assert b == b[..j] + [x] + b[j + 1..];
    assert multiset(a[..|a| - 1]) == multiset(a) - multiset{x};
    assert multiset(b[..j] + b[j + 1..]) == multiset(b) - multiset{x};
  }

  lemma {:induction false} CategoryTotalPermutation(a: seq<Evaluation>, b: seq<Evaluation>, c: Category)
    requires multiset(a) == multiset(b)
    ensures CategoryTotal(a, c) == CategoryTotal(b, c)
    decreases |a|
  {
    if a == [] {
      assert |b| == |multiset(b)| == 0;
    } else {
      var x := a[|a| - 1];
      assert x in multiset(b);
      var j :| 0 <= j < |b| && b[j] == x;
      MultisetRemoveMatching(a, b, j);
      CategoryTotalPermutation(a[..|a| - 1], b[..j] + b[j + 1..], c);
      CategoryTotalRemove(b, j, c);
    }
  }

  /** The averages do not depend on the order of the evaluation list. */
  lemma AveragesOrderIndependent(a: seq<Evaluation>, b: seq<Evaluation>)
    requires multiset(a) == multiset(b)
    ensures AverageRatingsOf(a) == AverageRatingsOf(b)
  {
    assert |a| == |multiset(a)| == |multiset(b)| == |b|;
    CategoryTotalPermutation(a, b, Communication);
    CategoryTotalPermutation(a, b, Confidence);
    CategoryTotalPermutation(a, b, Reasoning);
    CategoryTotalPermutation(a, b, Engagement);
  }

  /** Two records with the same four category scores, whatever their
      self-reported overall, names or notes. */
  predicate SameCategoryScores(x: Evaluation, y: Evaluation)
  {
    forall c :: Score(x.ratings, c) == Score(y.ratings, c)
  }

  lemma {:induction false} CategoryTotalPointwise(a: seq<Evaluation>, b: seq<Evaluation>, c: Category)
    requires |a| == |b|
    requires forall i :: 0 <= i < |a| ==> SameCategoryScores(a[i], b[i])
    ensures CategoryTotal(a, c) == CategoryTotal(b, c)
    decreases |a|
  {
    if a != [] {
      assert SameCategoryScores(a[|a| - 1], b[|b| - 1]);
      CategoryTotalPointwise(a[..|a| - 1], b[..|b| - 1], c);
    }
  }

  /** A record's own `ratings.overall` never enters the averages: lists that
      agree on the four category scores give the same result. */
  lemma SelfReportedOverallIgnored(a: seq<Evaluation>, b: seq<Evaluation>)
    requires |a| == |b|
    requires forall i :: 0 <= i < |a| ==> SameCategoryScores(a[i], b[i])
    ensures AverageRatingsOf(a) == AverageRatingsOf(b)
  {
    CategoryTotalPointwise(a, b, Communication);
    CategoryTotalPointwise(a, b, Confidence);
    CategoryTotalPointwise(a, b, Reasoning);
    CategoryTotalPointwise(a, b, Engagement);
  }

  function Rated(communication: nat, confidence: nat, reasoning: nat, engagement: nat, overall: nat): Evaluation
  {
    Evaluation("", "", Ratings(communication, confidence, reasoning, engagement, overall), "", "")
  }

  /** One record scored 10 in every category that reports 0 overall: the
      page shows 10.0 as the overall average, not the 0.0 the record reports. */
  lemma OverallDiffersFromSelfReportedMean()
    ensures AverageRatingsOf([Rated(100, 100, 100, 100, 0)]).overall == Tenths(100)
    ensures RoundedMean(Rated(100, 100, 100, 100, 0).ratings.overall, 1) == Tenths(0)
  {
    TotalsOfSnoc([], Rated(100, 100, 100, 100, 0));
    assert [] + [Rated(100, 100, 100, 100, 0)] == [Rated(100, 100, 100, 100, 0)];
    RoundedMeanIsUnique(400, 4, 100);
    RoundedMeanIsUnique(0, 1, 0);
  }

  // ---------------------------------------------------------------------
  // The chart series
  // ---------------------------------------------------------------------

  datatype ChartEntry = ChartEntry(name: string, value: Average, color: string)

  /** `pieChartData`: the four category averages, in a fixed order, each
      with its label and fixed colour; `overall` has no slice. */
  function PieChartData(a: AverageRatings): (chart: seq<ChartEntry>)
    ensures |chart| == |Categories|
    ensures forall i :: 0 <= i < |chart| ==> chart[i].value == AverageFor(a, Categories[i])
    ensures Names(chart) == ["Communication", "Confidence", "Reasoning", "Engagement"]
    ensures Colors(chart) == ["#10B981", "#3B82F6", "#8B5CF6", "#F59E0B"]
  {
    [
      ChartEntry("Communication", a.communication, "#10B981"),
      ChartEntry("Confidence", a.confidence, "#3B82F6"),
      ChartEntry("Reasoning", a.reasoning, "#8B5CF6"),
      ChartEntry("Engagement", a.engagement, "#F59E0B")
    ]
  }

  function Names(chart: seq<ChartEntry>): seq<string>
  {
    seq(|chart|, i requires 0 <= i < |chart| => chart[i].name)
  }

  function Colors(chart: seq<ChartEntry>): seq<string>
  {
    seq(|chart|, i requires 0 <= i < |chart| => chart[i].color)
  }

  /** Labels and colours are pairwise different, so the legend maps each
      slice to one category. */
  lemma ChartLegendIsInjective(a: AverageRatings)
    ensures forall i, j :: 0 <= i < j < |PieChartData(a)| ==>
      PieChartData(a)[i].name != PieChartData(a)[j].name &&
      PieChartData(a)[i].color != PieChartData(a)[j].color
  {
    var chart := PieChartData(a);
    assert chart[0].name[2] != chart[1].name[2];
    assert chart[0].name[0] != chart[2].name[0] && chart[0].name[0] != chart[3].name[0];
    assert chart[1].name[0] != chart[2].name[0] && chart[1].name[0] != chart[3].name[0];
    assert chart[2].name[0] != chart[3].name[0];
    assert chart[0].color[1] != chart[1].color[1] && chart[0].color[1] != chart[2].color[1]
      && chart[0].color[1] != chart[3].color[1] && chart[1].color[1] != chart[2].color[1]
      && chart[1].color[1] != chart[3].color[1] && chart[2].color[1] != chart[3].color[1];
  }

  /** The chart does not depend on `overall`. */
  lemma ChartExcludesOverall(a: AverageRatings, other: Average)
    ensures PieChartData(a.(overall := other)) == PieChartData(a)
  {
  }

  /** `overall` is not the mean of the four displayed category averages but
      stays close to it: four times `overall` differs from the sum of the
      chart values by at most three tenths. */
  lemma OverallNearChartMean(evals: seq<Evaluation>)
    requires evals != []
    ensures var a := AverageRatingsOf(evals);
      var chart := PieChartData(a);
      -3 <= 4 * a.overall.value
        - (chart[0].value.value + chart[1].value.value + chart[2].value.value + chart[3].value.value) <= 3
  {
    OverallNearMeanOfAverages(TotalsOf(evals), |evals|);
  }

  lemma OverallNearMeanOfAverages(t: Totals, n: nat)
    requires n > 0
    ensures var a := AveragesFromTotals(t, n);
      -3 <= 4 * a.overall.value
        - (a.communication.value + a.confidence.value + a.reasoning.value + a.engagement.value) <= 3
  {
    var a := AveragesFromTotals(t, n);
    var c1, c2, c3, c4 := a.communication.value, a.confidence.value, a.reasoning.value, a.engagement.value;
    var r := a.overall.value;
    var total := t.communication + t.confidence + t.reasoning + t.engagement;
    CategoryWindow(t.communication, n);
    CategoryWindow(t.confidence, n);
    CategoryWindow(t.reasoning, n);
    CategoryWindow(t.engagement, n);
    SumOfProducts(c1, c2, c3, c4, 2 * n);
    var s := c1 + c2 + c3 + c4;
    OverallWindow(total, n);
    ScaledLess(s, 4 * r, 2 * n);
    ScaledLess(4 * r, s, 2 * n);
  }

  lemma ScaledLess(x: nat, y: nat, k: nat)
    requires x * k < y * k + 4 * k
    ensures x < y + 4
  {
    if x >= y + 4 {
      MultiplyMonotone(y + 4, x, k);
    }
  }

  lemma CategoryWindow(total: nat, n: nat)
    requires n > 0
    ensures var c := RoundedMean(total, n).value;
      c * (2 * n) <= 2 * total + n < c * (2 * n) + 2 * n
  {
    var c := RoundedMean(total, n).value;
    assert 2 * c * n == c * (2 * n);
  }

  lemma OverallWindow(total: nat, n: nat)
    requires n > 0
    ensures var r := RoundedMean(total, n * 4).value;
      (4 * r) * (2 * n) <= 2 * total + 4 * n < (4 * r) * (2 * n) + 8 * n
  {
    var r := RoundedMean(total, n * 4).value;
    assert 2 * r * (n * 4) == (4 * r) * (2 * n);
  }

  lemma SumOfProducts(a: nat, b: nat, c: nat, d: nat, k: nat)
    ensures (a + b + c + d) * k == a * k + b * k + c * k + d * k
  {
  }

  /** Two records where `overall` (0.0) is not the rounded mean (0.1) of the
      four displayed category averages (0.1, 0.1, 0.0, 0.0). */
  lemma OverallIsNotMeanOfDisplayedAverages()
    ensures var a := AverageRatingsOf([Rated(1, 1, 0, 0, 0), Rated(0, 0, 0, 0, 0)]);
      a == AverageRatings(Tenths(1), Tenths(1), Tenths(0), Tenths(0), Tenths(0))
      && RoundedMean(1 + 1 + 0 + 0, 4) == Tenths(1)
  {
    TotalsOfSnoc([], Rated(1, 1, 0, 0, 0));
    assert [] + [Rated(1, 1, 0, 0, 0)] == [Rated(1, 1, 0, 0, 0)];
    TotalsOfSnoc([Rated(1, 1, 0, 0, 0)], Rated(0, 0, 0, 0, 0));
    assert TotalsOf([Rated(1, 1, 0, 0, 0), Rated(0, 0, 0, 0, 0)]) == Totals(1, 1, 0, 0);
    RoundedMeanIsUnique(1, 2, 1);
    RoundedMeanIsUnique(2, 8, 0);
    RoundedMeanIsUnique(2, 4, 1);
  }

  // ---------------------------------------------------------------------
  // The access guard and the page
  // ---------------------------------------------------------------------

  datatype User = User(id: string, name: string, role: string)

  const EvaluatorRole: string := "evaluator"

  /** The page shows the report only to a signed-in evaluator. */
  predicate Authorized(currentUser: Option<User>)
  {
    currentUser.Some? && currentUser.value.role == EvaluatorRole
  }

  /** The two things the page can render. The denied view carries no data. */
  datatype View =
    | AccessDenied
    | Report(feedback: SessionFeedback, averages: AverageRatings, chart: seq<ChartEntry>)

  /** The page: compute the averages and the chart, then show them only to
      an evaluator. */
  method FeedbackHistoryPage(currentUser: Option<User>, feedbackData: SessionFeedback) returns (view: View)
    ensures view.Report? <==> currentUser.Some? && currentUser.value.role == "evaluator"
    ensures view.Report? ==>
      view.feedback == feedbackData &&
      view.averages == AverageRatingsOf(feedbackData.evaluations) &&
      view.chart == PieChartData(view.averages)
  {
    var averageRatings := GetAverageRatings(feedbackData.evaluations);
    var pieChartData := PieChartData(averageRatings);
    if !Authorized(currentUser) {
      return AccessDenied;
    }
    view := Report(feedbackData, averageRatings, pieChartData);
  }

  /** No user, a participant and a moderator all get the denied view. */
  lemma OtherRolesDenied(id: string, name: string, role: string)
    requires role != EvaluatorRole
    ensures !Authorized(None)
    ensures !Authorized(Some(User(id, name, role)))
    ensures !Authorized(Some(User(id, name, "participant")))
    ensures !Authorized(Some(User(id, name, "moderator")))
  {
    assert "participant"[0] != EvaluatorRole[0];
    assert "moderator"[0] != EvaluatorRole[0];
  }

  // ---------------------------------------------------------------------
  // The session the page loads
  // ---------------------------------------------------------------------

  const MockEvaluations: seq<Evaluation> := [
    Evaluation("2", "Jane Participant", Ratings(85, 75, 90, 80, 83), "", "2025-04-10T16:45:00"),
    Evaluation("5", "Michael Smith", Ratings(70, 85, 75, 90, 80), "", "2025-04-10T16:47:00"),
    Evaluation("6", "Sarah Johnson", Ratings(90, 65, 85, 70, 78), "", "2025-04-10T16:50:00"),
    Evaluation("7", "David Brown", Ratings(65, 70, 80, 60, 69), "", "2025-04-10T16:55:00"),
    Evaluation("8", "Emily Wilson", Ratings(80, 80, 70, 75, 76), "", "2025-04-10T17:00:00")
  ]

  const MockFeedbackData: SessionFeedback := SessionFeedback(
    "3", "Leadership Skills Assessment", "Management", "Group Discussion",
    "2025-04-10T15:00:00", 90, "John Moderator", "1", 5, MockEvaluations, "")

  /** On the page's session the averages are 7.8, 7.5, 8.0 and 7.5, and
      `overall` is 7.7. */
  lemma MockSessionAverages()
    ensures AverageRatingsOf(MockFeedbackData.evaluations)
      == AverageRatings(Tenths(78), Tenths(75), Tenths(80), Tenths(75), Tenths(77))
  {
    var e := MockEvaluations;
    TotalsOfSnoc([], e[0]);
    assert [] + [e[0]] == e[..1];
    TotalsOfSnoc(e[..1], e[1]);
    assert e[..1] + [e[1]] == e[..2];
    TotalsOfSnoc(e[..2], e[2]);
    assert e[..2] + [e[2]] == e[..3];
    TotalsOfSnoc(e[..3], e[3]);
    assert e[..3] + [e[3]] == e[..4];
    TotalsOfSnoc(e[..4], e[4]);
    assert e[..4] + [e[4]] == e;
    assert TotalsOf(e) == Totals(390, 375, 400, 375);
    RoundedMeanIsUnique(390, 5, 78);
    RoundedMeanIsUnique(375, 5, 75);
    RoundedMeanIsUnique(400, 5, 80);
    RoundedMeanIsUnique(1540, 20, 77);
  }
}
