# Scoring and classification engine of the human-rights-sensitivity survey

The survey asks 27 questions on a 4-point Likert scale. Questions 1-9 form the
감 (emotion) subscale, 10-18 the 수 (norm) subscale and 19-27 the 성
(reflection) subscale. The last three items of each subscale (7-9, 16-18,
25-27) also make up the 9-item "mental-illness situation" (정신) score.
The engine works in four steps:

1. It sums the answers into a total, three subscales, the situational score and
   its three 3-item sub-sums.
2. It bands the total and the situational score into low, mid or high.
3. It classifies each profile as balance, emotion, norm, reflect or normal.
   "normal" is returned when the band is low. Otherwise the balance test runs
   first, then the dominant axis is chosen, with ties going to emotion, then
   norm, then reflect.
4. It assembles a result record with the nominal type codes and the row that
   is appended to the response sheet.

Modules, one per component:

- `Wrappers` (`wrappers.dfy`): the `Option` datatype.
- `Aggregation` (`aggregation.dfy`):
  - the submit gate, which collects the answers only when all 27 are present;
  - Python's `sum` over slices and over the generator on the situational items;
  - the decomposition and range lemmas.
- `Typology` (`typology.dfy`):
  - the two banding functions;
  - the generic classifier, with the early-return scan written as a recursion
    over the ordered axis list;
  - the two short-circuiting wrappers;
  - the two code tables and their inverses.
- `Record` (`record.dfy`):
  - the result record;
  - the stored row, an insertion-ordered dictionary modelled as a sequence of
    (column, cell) pairs. `Put` is dictionary item assignment: it updates a
    column that is already there and appends a new one. `BuildRow` fills
    q1..q27 in a loop, as the source does.

The input precondition (exactly 27 answers, each in 1..4) is a `requires` or
a hypothesis (`ValidAnswers`) on the scoring lemmas. In the source it is
enforced only by the radio widget, which offers 1..4, and by the submit gate.
The gate is modelled by `CollectAnswers`.

app.py has a single situational banding, `mental_level` (app.py:254-261),
and the model follows it: low up to 19, mid 20-26, high from 27.

The type keys are a closed datatype. So the `.get(key, default "normal")`
lookups of the code tables never take their default, and the code functions
are total maps from keys to codes.

## Model

| member | source | states |
|---|---|---|
| Aggregation.CollectAnswers | app.py:664-668 | the answers are collected exactly when every question 1..27 has an answer in the session; answer i-1 is question i; if questions 1..27 hold only values 1..4, the result is a complete valid response set |
| Aggregation.Sum | app.py:669-672 | Python's `sum`; n answers taken from the widget's options 1..4 sum to between n and 4n (decomposition over concatenation in `SumConcat`) |
| Aggregation.SumItems | app.py:674-675 | the generator sum over 1-based item numbers; over n items of an all-1..4 answer list it lies between n and 4n |
| Aggregation.SituationalAxes | app.py:819-821 | mh_gam, mh_su, mh_seong: the sums of items 7-9, 16-18 and 25-27; each in [3, 12] for a complete response set (their total and containment in `SituationalSplit` and `ScoreBounds`) |
| Aggregation.Aggregate | app.py:668-675 | the total equals 감 + 수 + 성, and the situational score equals the sum of its three 3-item sub-sums |
| Aggregation.SituationalSplit | app.py:674-675 | the generator sum over items 7,8,9,16,17,18,25,26,27 equals mh_gam + mh_su + mh_seong as computed on the result page |
| Aggregation.SubscaleContainsSituational | app.py:819-821 | a 9-item subscale of valid answers lies in [9, 36] and is at least its situational sub-sum (its last three items) plus 6 |
| Aggregation.ScoreBounds | app.py:668-675 | for 27 answers in 1..4: total in [27, 108] and equal to the sum of the subscales; each subscale in [9, 36]; situational score in [9, 36] and equal to its sub-sums; each sub-sum in [3, 12] and at most its subscale |
| Typology.OverallLevel | app.py:245-252 | low exactly when total <= 67, mid exactly when 68 <= total <= 87, high exactly when total >= 88 |
| Typology.MentalLevel | app.py:254-261 | high exactly when score >= 27, mid exactly when 20 <= score <= 26, low exactly when score <= 19 |
| Typology.OverallLevelMonotone | app.py:245-252 | a larger total never gets a lower overall band |
| Typology.MentalLevelMonotone | app.py:254-261 | a larger situational score never gets a lower situational band |
| Typology.LevelBoundaries | app.py:245-261 | 67 is low, 68 and 87 are mid, 88 is high; 19 is low, 20 and 26 are mid, 27 is high |
| Typology.Max3 | app.py:321 | the maximum is at least each score and equal to one of them |
| Typology.Min3 | app.py:321 | the minimum is at most each score and equal to one of them |
| Typology.IsBalanced | app.py:320-321 | the balance test holds exactly when every axis reaches mid_cut and every two axes differ by at most the gap; it never holds for a negative gap |
| Typology.FirstAtMax | app.py:327-329 | the scan returns nothing exactly when no entry carries the maximum; otherwise it returns the key of the first entry that does |
| Typology.ClassifyByScores | app.py:317-330 | never "normal"; "balance" exactly when every axis reaches mid_cut and max - min <= gap; otherwise emotion exactly when emotion is a maximum, norm exactly when norm beats emotion and ties or beats reflect, reflect exactly when it beats both |
| Typology.ScanFindsMaximum | app.py:326-330 | the scan over [emotion, norm, reflect] always finds the maximum, so the trailing "balance" fallback is unreachable |
| Typology.EmotionWinsTies | app.py:325-329 | when the balance test fails and emotion equals the maximum, the result is emotion whatever norm and reflect are |
| Typology.ClassifierExamples | app.py:317-330 | (30, 30, 10) with mid cut 19 and gap 3 is emotion; (20, 21, 19) is balance |
| Typology.ClassifyMainType | app.py:332-337 | "normal" exactly when the total's band is low; otherwise the generic classifier with mid cut 19 and gap 3 |
| Typology.ClassifyMentalType | app.py:339-344 | "normal" exactly when the situational band is low; otherwise the generic classifier with mid cut 7 and gap 2 |
| Typology.LowTotalOverridesEmotion | app.py:317-337 | 9/9/9 has zero spread and the generic classifier with mid cut 19 gives emotion (below the mid cut, tie to emotion), yet a total of 27 gives "normal" |
| Typology.MainCode | app.py:301-307 | every overall type has a code in 1..5 |
| Typology.MentalCode | app.py:309-315 | every situational type has a code in 11..15, its overall code plus 10 |
| Typology.MainKeyOfCode | app.py:301-307 | exactly the codes 1..5 decode to an overall type |
| Typology.MentalKeyOfCode | app.py:309-315 | exactly the codes 11..15 decode to a situational type |
| Typology.CodeDecodes | app.py:301-315 | in each table, a type's code decodes back to that type |
| Typology.DecodeEncodes | app.py:301-315 | in each table, a code that decodes to a type is that type's code |
| Typology.CodesInjectiveAndDisjoint | app.py:301-315 | distinct types get distinct codes in each table, and no overall code is a situational code |
| Record.Evaluate | app.py:812-835 | the record keeps the answers; its total, subscales, situational score and situational sub-sums are those aggregated from the answers; total and situational score split into their axes; each type is "normal" exactly when its band is low, otherwise the generic classifier with that profile's parameters; each code decodes back to its type |
| Record.EvaluateBounds | app.py:812-821 | for 27 answers in 1..4 the record's total lies in [27, 108], its subscales and situational score in [9, 36], its situational sub-sums in [3, 12], each at most its subscale |
| Record.AllHighAnswers | app.py:812-829 | all answers 4 give total 108 with subscales 36/36/36, balance with code 1, situational score 36 with sub-sums 12/12/12, balance with code 11 |
| Record.AllLowAnswers | app.py:812-829 | all answers 1 give total 27, normal with code 5, situational score 9, normal with code 15 |
| Record.Put | app.py:916-917 | after assignment the column reads the new cell and every other column reads as before; an existing column keeps its place and the column order is unchanged; a new column is appended at the end |
| Record.Header | app.py:905-915 | the row's eight leading columns (time, total, 감, 수, 성, situational score, both codes) are distinct and none is an answer column |
| Record.RowOf | app.py:903-917 | the stored row repeats no column, has 8 cells plus one per answer, and after the leading columns holds q{j+1} = answer j |
| Record.Values | app.py:506 | `list(row.values())` keeps the row's length, and in a row without repeated columns the value at each position is what the dictionary holds under that position's column |
| Record.BuildRow | app.py:903-917 | the loop builds exactly the header columns followed by q1..q27 from the answers |
| Record.LookupAt | app.py:916-917 | in a row without repeated columns, each column reads back its own cell |
| Record.RowStoresRecord | app.py:903-917 | the stored row has q_i = answers[i-1] for every i; it holds the time, scores and both codes under their columns; the answers follow the eight leading cells in question order |

## Left out

- Page flow, session-state flags, CSS, the progress bar and the form widgets are UI. The widget's 1..4 range is a hypothesis of the scoring lemmas.
- Writes to the response, phone and feedback sheets (`save`, `save_phone`, `save_feedback`) and the error handling around them are network I/O. Only the row and its list of values are modelled.
- The time stamp comes from the clock, so it is a parameter of `BuildRow`.
- The PDF report, its word wrap and the radar charts are rendering by foreign libraries with floating-point layout.
- The narrative type texts (`TYPE_TEXT_MAIN`, `TYPE_TEXT_MH`) are display strings; only the keys they are indexed by are modelled.
- The demographic label-to-code maps and the row's demographic columns are plain lookup tables whose `.get` gives None; the modelled row ends after q27.
- perception_app.py is not part of this model. It is a separate form whose only logic is a missing-field check and a CSV append.
- The result page keeps its dictionary in the session and adds the type keys and codes to it in place. Here it is the immutable `ResultRecord` built in one step by `Evaluate`.
