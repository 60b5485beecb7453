# Feedback history of an evaluated session

This project models the part of the SpeakSpace evaluator's "Feedback History" page that computes something. The page loads one session's feedback: a list of evaluation records, each with four category scores (communication, confidence, reasoning, engagement) and a separately entered overall score. From that list it computes:

- the per-category average ratings and an overall average (`getAverageRatings`);
- the four-slice pie-chart series built from those averages (`pieChartData`);
- the decision to show the report only to a signed-in evaluator, and an Access Denied card to anyone else.

Everything lives in one Dafny module, `FeedbackHistory` (`feedback_history.dfy`):

- **Scores** are whole numbers of tenths (`nat`), so 8.5 is `85`. Every score on the page has one decimal.
- **Totals loop.** The `forEach` loop that adds each record's four scores into the mutable `totals` object is the method `GetAverageRatings`. Its loop invariant ties the running totals to `TotalsOf` of the records seen so far. `TotalsOf` is built on `CategoryTotal`, a recursive sum over the list.
- **Rounding.** `parseFloat((total / count).toFixed(1))` is `RoundedMean`. It rounds the exact mean to the nearest tenth, with a tie going up. For a count of zero it gives the explicit value `NaN`, the value JavaScript produces for `0 / 0`.
- **Overall.** `overall` is computed as in the source. It is the rounded grand mean of all four totals over `count * 4` scores. A record's own `ratings.overall` is never read.
- **Chart.** `PieChartData` is the fixed four-entry series. The order is Communication, Confidence, Reasoning, Engagement, and the colours are `#10B981`, `#3B82F6`, `#8B5CF6`, `#F59E0B`.
- **Page.** `FeedbackHistoryPage` computes the averages and the chart, then applies the guard. The report is shown only when a current user exists and that user's role is the string `"evaluator"`.

Where the design description and the code disagree, the model follows the code:

- **Empty list.** The design asks for a zero or empty summary when there are no evaluations. The code produces NaN in every field, and the model keeps that as the explicit `NaN` value.
- **Overall.** The design calls `overall` the mean of the four category averages, "equivalently" the grand mean. The code computes the grand mean from the unrounded totals, and the two can differ. `OverallIsNotMeanOfDisplayedAverages` gives an input where they differ. `OverallNearChartMean` bounds the gap: four times `overall` is within three tenths of the sum of the four displayed averages.
- **Roles.** The design suggests a closed enumeration of roles. The code compares a role string, so the model does too.

## Model

| member | source | states |
|---|---|---|
| FeedbackHistory.GetAverageRatings | src/pages/evaluator/FeedbackHistory.tsx:127-151 | the loop leaves every category total equal to that category's sum over all evaluations (loop invariant against `TotalsOf` of the processed prefix), and the result is those totals divided by the count and rounded, with `overall` from the grand total over `count * 4` |
| FeedbackHistory.RoundedMean | src/pages/evaluator/FeedbackHistory.tsx:145-149 | a mean rounded to one decimal: NaN exactly when the count is 0; otherwise the exact mean `total / count` lies in `[r - 0.05, r + 0.05)`, i.e. `r` is the nearest tenth and a tie goes up |
| FeedbackHistory.RoundedMeanIsUnique | src/pages/evaluator/FeedbackHistory.tsx:145-149 | only one tenth satisfies that window, so the window determines the rounded value |
| FeedbackHistory.RoundedMeanWithin | src/pages/evaluator/FeedbackHistory.tsx:145-149 | a total of `count` values that all lie in `[lo, hi]` rounds to a mean in `[lo, hi]` |
| FeedbackHistory.TotalsOfSnoc | src/pages/evaluator/FeedbackHistory.tsx:135-140 | processing one more record adds each of its four scores to the matching total and nothing else |
| FeedbackHistory.CategoryAverageIsRoundedMean | src/pages/evaluator/FeedbackHistory.tsx:142-148 | each category average is NaN exactly for an empty list; otherwise it is within 0.05 of the category total divided by the record count |
| FeedbackHistory.OverallIsGrandMean | src/pages/evaluator/FeedbackHistory.tsx:149 | `overall` is NaN exactly for an empty list; otherwise it is within 0.05 of the sum of all four category totals divided by `4 * count` |
| FeedbackHistory.EmptyListGivesNaN | src/pages/evaluator/FeedbackHistory.tsx:142-149 | with no evaluation all five averages are NaN; with at least one, none is |
| FeedbackHistory.CategoryTotalBounds | src/pages/evaluator/FeedbackHistory.tsx:135-140 | if every score of a category lies in `[lo, hi]`, its total lies in `[count * lo, count * hi]` |
| FeedbackHistory.CategoryAverageWithinBounds | src/pages/evaluator/FeedbackHistory.tsx:135-148 | if every score of a category lies in `[lo, hi]` (tenths), that category's rounded average lies in `[lo, hi]` |
| FeedbackHistory.OverallWithinBounds | src/pages/evaluator/FeedbackHistory.tsx:135-149 | if every score of all four categories lies in `[lo, hi]`, `overall` lies in `[lo, hi]` |
| FeedbackHistory.CategoryTotalAppend | src/pages/evaluator/FeedbackHistory.tsx:135-140 | the total over two concatenated lists is the sum of their totals |
| FeedbackHistory.CategoryTotalRemove | src/pages/evaluator/FeedbackHistory.tsx:135-140 | removing one record from the list removes exactly its score from the total |
| FeedbackHistory.CategoryTotalPermutation | src/pages/evaluator/FeedbackHistory.tsx:135-140 | a category total does not depend on the order of the list (equal multisets give equal totals) |
| FeedbackHistory.AveragesOrderIndependent | src/pages/evaluator/FeedbackHistory.tsx:135-149 | permuting the evaluation list gives the same five averages |
| FeedbackHistory.CategoryTotalPointwise | src/pages/evaluator/FeedbackHistory.tsx:135-140 | lists whose records agree pointwise on the four category scores have the same totals |
| FeedbackHistory.SelfReportedOverallIgnored | src/pages/evaluator/FeedbackHistory.tsx:136-149 | a record's own `ratings.overall` (and its names and notes) never enters the averages: lists that agree on the four category scores give the same result |
| FeedbackHistory.OverallDiffersFromSelfReportedMean | src/pages/evaluator/FeedbackHistory.tsx:149 | a record scored 10 in every category that reports 0 as its own overall yields an `overall` of 10.0, not the 0.0 the record reports |
| FeedbackHistory.PieChartData | src/pages/evaluator/FeedbackHistory.tsx:155-160 | the chart has exactly four entries; entry `i`'s value is the average of the `i`-th category in the order Communication, Confidence, Reasoning, Engagement; the labels and the colours `#10B981`, `#3B82F6`, `#8B5CF6`, `#F59E0B` are fixed in that order |
| FeedbackHistory.ChartLegendIsInjective | src/pages/evaluator/FeedbackHistory.tsx:155-160 | the four labels are pairwise different and so are the four colours |
| FeedbackHistory.ChartExcludesOverall | src/pages/evaluator/FeedbackHistory.tsx:155-160 | the chart does not depend on `overall` |
| FeedbackHistory.OverallNearChartMean | src/pages/evaluator/FeedbackHistory.tsx:145-160 | for a non-empty list, four times `overall` differs from the sum of the four chart values by at most three tenths |
| FeedbackHistory.OverallNearMeanOfAverages | src/pages/evaluator/FeedbackHistory.tsx:142-149 | the same bound stated on any totals and any positive count |
| FeedbackHistory.OverallIsNotMeanOfDisplayedAverages | src/pages/evaluator/FeedbackHistory.tsx:142-149 | two records whose category averages are 0.1, 0.1, 0.0 and 0.0 get an `overall` of 0.0, while the rounded mean of those averages is 0.1 |
| FeedbackHistory.FeedbackHistoryPage | src/pages/evaluator/FeedbackHistory.tsx:153-190 | the report is shown if and only if a current user exists and its role is `"evaluator"`; a shown report carries the session, the averages of its evaluations and the chart of those averages; any other case renders Access Denied, which carries no data |
| FeedbackHistory.OtherRolesDenied | src/pages/evaluator/FeedbackHistory.tsx:170 | no user, a participant, a moderator or any other role is denied |
| FeedbackHistory.MockSessionAverages | src/pages/evaluator/FeedbackHistory.tsx:33-104 | on the page's session the averages are communication 7.8, confidence 7.5, reasoning 8.0, engagement 7.5 and overall 7.7 |

## Left out

- IEEE-754 doubles are not modelled. The source divides and rounds binary floating-point numbers. The model works in exact tenths and rounds a tie up. This matches `toFixed`'s rule of "the larger of two equally close values" when the mean is exactly representable. It does not capture a mean such as 7.15 that is stored slightly below or above the tie, or rounding error in the running sums.
- Scores are non-negative (`nat`). The source does not validate ratings, but negative scores would need `toFixed`'s sign handling.
- `formatDate` (lines 115-125) is not modelled: it only calls the locale-dependent `toLocaleDateString`.
- `exportFeedback` (lines 162-168) is not modelled: it only writes a console message and shows a toast.
- The pie label text (line 259) is not modelled: it formats a percentage computed inside the chart library.
- React rendering is not modelled: hooks, layout, cards and tables have no behaviour beyond showing the values above. The login navigation from the denied view is not modelled either.
- The mock record's image URLs and note texts are left out of `MockEvaluations`; they are display data that no computation reads.
- src/App.tsx (route table) and src/components/evaluator/feedback/SessionNotes.tsx (a card that echoes its text) are not part of this model.
