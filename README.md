# A verified model of the ai_sinba_1 scoring pipeline

`ai_sinba_1.py` prepares race entries for a quinella classifier in four steps:

1. **Row normalisation** (`Results.p_p`, the start of `Results.merge`) turns the raw race and history rows into typed fields:
   - sex and age, the season of the month, the surface and the distance;
   - the venue code, the first-corner position and the body weight;
   - the relative finish 実質着順.
2. **Look-back features** (`Results.merge`). For every race date it does the following:
   - keeps only the history rows strictly before that date;
   - counts each horse's earlier runs;
   - restricts the rows to the ten JRA racecourses;
   - takes the three previous runs, the joined seasons and jockeys of earlier top-two finishes, and the distance and interval differences.
3. **Pedigree classification** (`Peds.p_p_1`, `Peds.p_p`). Every ancestor's five generation strings are scanned for fixed name lists, which gives 34 sub-lineage flags. These are grouped into major lineages (大系統) and regional types (日本型/米国型/欧州型). Four ancestors are then combined into the pedigree flags of the runner: 非サンデー馬, 米国A/B, 欧州A/B and the others.
4. **Integer points** (`Peds.merge`, `Peds.point`). Each column is started at 0 and changed by an ordered list of masked updates `df.loc[lhs, col] = df.loc[rhs, col] + delta`. The columns are:
   - blood_point and advantage_point;
   - jockey, trainer, margin (着差) and rank (着順) points;
   - camp, the jockey points plus the trainer points.

   Finally the quinella label marks the first two finishers.

The model is split into one Dafny module per part:

| file | module | holds |
|---|---|---|
| `text.dfy` | `Text` | missing values (`Option`), exceptions (`Outcome`), substring search, slicing, digit runs |
| `fields.dfy` | `Fields` | typed race and history rows and their normalisation |
| `lineage.dfy` | `Lineage` | the sub-lineage classifier and the four-ancestor pedigree |
| `lookback.dfy` | `LookBack` | per-runner look-back features; the class `Results` with its date loop |
| `tables.dfy` | `Tables` | course groups, pace sire groups, gate lists, favoured jockeys and trainers |
| `rules.dfy` | `Rules` | the mask language, one masked update, an ordered list of updates, the column method |
| `scoring.dfy` | `Scoring` | the update tables of every point column, their lemmas, the class `Peds`, the label |

Modelling conventions:
- A pandas NaN/NaT is `None`, and every comparison with a missing value is false.
- Dates and intervals are integer days.
- Margins are integer tenths of a second.
- 実質着順 is an exact `real`.
- The "1"/"0" flag strings are booleans or set membership.

A masked update whose right-hand mask differs from its left-hand one is modelled as pandas executes it. Index alignment gives NaN to every row that the left mask selects and the right one does not. That NaN survives all later additions, and blood_point is then filled with 0.

## Model

| member | source | states |
|---|---|---|
| Text.Occurs | ai_sinba_1.py:523 | Python `p in s` on strings: true exactly when `p` occurs contiguously somewhere in `s` |
| Text.ContainsAny | ai_sinba_1.py:102 | `str.contains` with an alternation of literal names: true exactly when one of the names occurs in the text |
| Text.Slice | ai_sinba_1.py:49 | `s[lo:hi]` clamps at the end; its length and every character are those of the window |
| Text.ParseNat | ai_sinba_1.py:21 | numeric conversion of a digit string: present exactly for non-empty all-digit text |
| Text.ParsePrinted | ai_sinba_1.py:265-266 | `str(n)` parsed back gives `n` (round trip of the course length in the course key) |
| Text.PrintParsed | ai_sinba_1.py:265-266 | a digit string without a leading zero prints back unchanged after parsing |
| Text.TextBeforeDigits | ai_sinba_1.py:236 | `re.split(r"\d+", s)[0]`: the longest digit-free prefix; the next character, if any, is a digit |
| Text.FirstDigitRun | ai_sinba_1.py:55 | `re.findall(r"\d+", x)[0]`: the first maximal digit run; absent exactly when the text has no digit |
| Text.TextBefore | ai_sinba_1.py:46 | `split("(")[0]`: the longest prefix without `(`, followed by `(` when shorter than the text |
| Fields.Season | ai_sinba_1.py:26-27 | the month maps to one of 冬/春/夏/秋 by quarter: 12, 1, 2 winter; 3-5 spring; 6-8 summer; 9-11 autumn |
| Fields.SeasonsDistinct | ai_sinba_1.py:26 | two months have the same season exactly when they fall in the same quarter |
| Fields.CourseLength | ai_sinba_1.py:20 | a course length under 1000 becomes 3600; others are kept |
| Fields.CourseLengthIdempotent | ai_sinba_1.py:20 | correcting an already corrected length changes nothing |
| Fields.SexAge | ai_sinba_1.py:22-23 | sex is the first character of 性齢 and age the remainder as an integer; fails exactly when the remainder is not a number |
| Fields.NormaliseEntry | ai_sinba_1.py:18-29 | a race row converts exactly when its age converts; sex and age are those read from 性齢, season, corrected course length and numeric finish are computed from the raw fields, and horse, race, date, month, venue, race type, gate, jockey and trainer pass through unchanged |
| Fields.SexAgeRoundTrip | ai_sinba_1.py:22-23 | a sex character followed by a printed age reads back as that sex and age |
| Fields.NormaliseEntryReadsSexAge | ai_sinba_1.py:22-23 | a race row whose 性齢 is a sex followed by a printed age converts, with that sex and age |
| Fields.HistoryRaceType | ai_sinba_1.py:42-44 | ダ gives ダート, 障 gives 障害, anything else (turf included) is missing |
| Fields.TurfHistoryHasNoRaceType | ai_sinba_1.py:42-44 | a turf history row (芝…) has no race type |
| Fields.HistoryDistance | ai_sinba_1.py:38-39 | the distance is the text after the first character, present exactly when that text is a number |
| Fields.VenueCode | ai_sinba_1.py:48-50 | characters 1..3 of 開催 looked up in the ten-venue table; present codes are JRA codes |
| Fields.VenueCodeOfName | ai_sinba_1.py:48-50 | a meeting string with a venue name at positions 1..3 gets that venue's code |
| Fields.LookupFindsFirst | ai_sinba_1.py:48 | dictionary lookup of a key of the table returns its value |
| Fields.FirstCorner | ai_sinba_1.py:51-56 | `corner`: a missing 通過 stays missing, a string without digits raises, otherwise the first digit run |
| Fields.BodyWeight | ai_sinba_1.py:45-47 | the weight is the number before `(`, missing when that text is not a number |
| Fields.RelativeFinish | ai_sinba_1.py:40-41 | 実質着順 = 1 - 着順/頭数, present exactly when the finish is; in [0, 1) for a real placing |
| Fields.RelativeFinishMonotone | ai_sinba_1.py:41 | a better finish gives a strictly higher 実質着順 |
| Fields.NormaliseHistoryRow | ai_sinba_1.py:32-56 | a history row converts exactly when its distance converts and its 通過 does not raise; season, distance, numeric finish, 実質着順, race type, 体重, venue code and first corner are computed from the raw fields, and horse, date, jockey, 馬番, 人気 and 着差 pass through unchanged |
| Lineage.NamesAt | ai_sinba_1.py:102-169 | the names searched per generation: Miswaki is searched exactly for キングマンボ系 in generation 1; for Pサンデー系 アグネスタキオン is searched exactly in generations 1-4; every other listed name is searched and nothing outside the list and Miswaki is |
| Lineage.SubFlag | ai_sinba_1.py:102-169 | a sub-lineage flag is set exactly when one of the five generations contains one of the names searched there |
| Lineage.FoundInGeneration | ai_sinba_1.py:102-169 | a listed name in any generation sets the flag |
| Lineage.SubFlags | ai_sinba_1.py:102-169 | the set of flags is exactly the sub-lineages present |
| Lineage.MajorFlags | ai_sinba_1.py:171-182 | 大系統サンデー iff サンデーサイレンス occurs in a generation; every other major iff one of its member sub-lineages is set |
| Lineage.RegionFlags | ai_sinba_1.py:183-188 | a regional type is set iff its major or one of its listed sub-lineages is set |
| Lineage.Classify | ai_sinba_1.py:97-190 | `p_p_1` on one row: all the iffs above, and サンデー ⇒ 日本型, 米国ND ⇒ 米国型, 欧州ND ⇒ 欧州型 |
| Lineage.KingmamboByMiswaki | ai_sinba_1.py:142 | with no Kingmambo anywhere, キングマンボ系 is set exactly when generation 1 contains Miswaki |
| Lineage.MiswakiOnlyInFirstGeneration | ai_sinba_1.py:142 | Miswaki in generation 1 sets キングマンボ系; in generation 2 it does not |
| Lineage.PSundayByAgnesTachyon | ai_sinba_1.py:166 | with none of the other Pサンデー names present, the flag is set exactly when アグネスタキオン is in generations 1-4 |
| Lineage.AgnesTachyonMissedInFifthGeneration | ai_sinba_1.py:166 | アグネスタキオン in generation 5 alone does not set Pサンデー系; in generation 4 it does |
| Lineage.Combine | ai_sinba_1.py:239-258 | 非サンデー馬 iff no ancestor has 大系統サンデー; 米国A iff all three sires are 米国型 and 米国B iff the sire and a dam-side sire are; 欧州B iff at least two and 欧州A iff all three sires are 欧州型; A implies B; サンデー×米国 iff one of sire and dam's sire is Sunday-line and the other US-type; ディープ and キングマンボ iff sire or dam's sire has that sub-lineage |
| Lineage.PedigreeOf | ai_sinba_1.py:192-259 | `p_p` for one horse: each of the four ancestors is the classification of its own row, the sire names are cut before the first digits, and 非サンデー馬 iff no サンデーサイレンス in any of the four rows |
| Lineage.SireNameKeepsTrailingSpace | ai_sinba_1.py:236 | cutting "ディープインパクト 2002" keeps the space, matching the constants of the blood updates |
| LookBack.Earlier | ai_sinba_1.py:61 | the members are exactly the history rows strictly before the date |
| LookBack.EarlierExact | ai_sinba_1.py:61 | each earlier row is kept as often as in the table, every other row dropped, and the order is the table's (a subsequence) |
| LookBack.OfHorse | ai_sinba_1.py:63 | the members are exactly the rows of the horse |
| LookBack.OfHorseExact | ai_sinba_1.py:63 | each row of the horse is kept as often as in the table, in table order, and no other |
| LookBack.AtJra | ai_sinba_1.py:64-65 | the members are exactly the rows at venue codes 01..10 |
| LookBack.AtJraExact | ai_sinba_1.py:64-65 | each row at a JRA venue is kept as often as in the table, in table order, and no other |
| LookBack.TopTwo | ai_sinba_1.py:66-69 | the members are exactly the rows with finish 1 or 2 |
| LookBack.TopTwoExact | ai_sinba_1.py:66-69 | each row finishing first or second is kept as often as in the table, in table order, and no other |
| LookBack.Nth | ai_sinba_1.py:70-75 | `nth(k)` is present iff there are more than k rows, and is then the k-th row |
| LookBack.PriorJraRuns | ai_sinba_1.py:61-65 | the horse's group after the venue filter holds exactly its earlier runs at JRA venues |
| LookBack.PriorJraRunsSinglePass | ai_sinba_1.py:61-65 | the three filters in sequence equal one pass over the table keeping the horse's earlier JRA runs in order |
| LookBack.NthPriorJraRun | ai_sinba_1.py:70-75 | `nth(k)` of the horse's earlier JRA runs is the run preceded in the table by exactly k other such runs, and missing when there is none |
| LookBack.Minus | ai_sinba_1.py:76-81 | a difference is present iff both sides are, and adds back to the minuend |
| LookBack.Features | ai_sinba_1.py:58-81 | 出走回数 counts all earlier runs and is missing iff there are none; the k-th previous run is `nth(k-1)` of the horse's earlier JRA runs; prev3 ⇒ prev2 ⇒ prev1; the three distance changes and three intervals are the differences of the named columns, missing when a side is; 今回間隔 is positive |
| LookBack.FeaturesJoinTopTwo | ai_sinba_1.py:66-69 | 実績季節 is present iff the horse has an earlier JRA run finishing first or second, and 実績騎手 exactly when 実績季節 is; every such run's jockey id occurs in 実績騎手; a season character occurs in 実績季節 iff one such run has that season |
| LookBack.EarlierIdempotent | ai_sinba_1.py:61 | filtering by date twice equals filtering once |
| LookBack.NoLookAhead | ai_sinba_1.py:61-62 | the features depend only on the rows dated before the race |
| LookBack.RunsElsewhereCountOnly | ai_sinba_1.py:63-65 | runs only outside the JRA venues give a run count and no previous-run or 実績 columns |
| LookBack.CharInSeasons | ai_sinba_1.py:66-67 | a season character occurs in the joined seasons iff one row has that season |
| LookBack.JockeyInJoined | ai_sinba_1.py:68-69 | every joined jockey id occurs in the joined string |
| LookBack.UniqueDates | ai_sinba_1.py:58 | `unique()`: no repeats, and exactly the dates of the race rows |
| LookBack.RowsOn | ai_sinba_1.py:62 | the merged rows of one date are the features of that date's entries |
| LookBack.MergedFor | ai_sinba_1.py:59-83 | the concatenated frame holds exactly the features of the entries on the given dates |
| LookBack.RowsOnCount | ai_sinba_1.py:62 | the rows for one date hold each race row of that date exactly as often as the race table does, and no other |
| LookBack.MergedForCount | ai_sinba_1.py:59-83 | over distinct dates the concatenation holds each race row of those dates exactly as often as the race table does, and no other |
| LookBack.MergedCoversResults | ai_sinba_1.py:58-83 | over all unique dates the merged rows are the features of the entries, each race row appears exactly as often as in the race table, and the merged table has as many rows as the race table |
| LookBack.NormaliseEntries | ai_sinba_1.py:18-29 | the table converts iff every row does, row by row |
| LookBack.NormaliseHistory | ai_sinba_1.py:32-56 | the history converts iff every row does, row by row |
| LookBack.Results.PreProcess | ai_sinba_1.py:18-29 | succeeds iff every row converts, and then stores the converted race rows; the history and merged frames are untouched |
| LookBack.Results.Merge | ai_sinba_1.py:31-83 | succeeds iff every history row converts and the race table is not empty (an empty table leaves `pd.concat` nothing to join, and before p_p there is no date column); the converted history is stored whenever it converts; on success the merged frame is the rows of every unique date in turn, on failure it is untouched; the race table never changes |
| Tables.InAnyList | ai_sinba_1.py:269-288 | `course.isin(l1 + l2 …)` iff the course is in one of the groups |
| Tables.PaceGroupsDisjoint | ai_sinba_1.py:464-469 | no sire is in both pace groups |
| Tables.GatePlusMinusDisjoint | ai_sinba_1.py:494-501 | within the bands 1-4, 10-14 and 15+ no course is both favoured and disfavoured |
| Rules.ApplyRule | ai_sinba_1.py:444-445 | one masked update: unselected rows keep their value, left-only rows become NaN, rows selected on both sides gain the delta |
| Rules.FoldKeepsNaN | ai_sinba_1.py:268-487 | a NaN is never repaired by later updates |
| Rules.FoldAddsFiring | ai_sinba_1.py:268-487 | an ordered list from a number ends in NaN iff some update misfires, otherwise adds the deltas of the updates selecting the row |
| Rules.FoldUnselected | ai_sinba_1.py:268-487 | updates that do not select a row leave it unchanged |
| Rules.FoldAppend | ai_sinba_1.py:268-524 | running two lists in sequence is running their concatenation |
| Rules.SumAppend | ai_sinba_1.py:489-524 | the order-free sum over a concatenation is the sum of the parts |
| Rules.SumNoneSelected | ai_sinba_1.py:542-554 | updates selecting nothing add nothing |
| Rules.SumOneSelected | ai_sinba_1.py:542-554 | when exactly one update selects the row, the sum is its delta |
| Rules.SumExclusiveBounded | ai_sinba_1.py:502-515 | mutually exclusive updates with deltas in [-b, b] add up to a value in [-b, b] |
| Rules.ApplyRules | ai_sinba_1.py:268-487 | the column method: after the updates every cell equals the ordered fold of the list on its row |
| Rules.NewColumn | ai_sinba_1.py:268 | a fresh column started at 0 for every row, then updated: each cell is the ordered fold of the list on its row |
| Scoring.BloodPoint | ai_sinba_1.py:268-487 | blood_point after fill 0: 0 if any update misfires on the runner, otherwise the sum of the deltas of the updates that select it |
| Scoring.OnlyLineageRulesMisfire | ai_sinba_1.py:289-487 | sire, filly and pace updates never misfire; only lineage updates can |
| Scoring.LineageMisfires | ai_sinba_1.py:442-459 | a lineage update misfires iff the course is in its group, its left flags hold and its right flags do not |
| Scoring.TurfBMasks | ai_sinba_1.py:444-445 | the two masks differ exactly for a US- or European-type sire with none of the right-hand flags |
| Scoring.TurfBLineageMisfires | ai_sinba_1.py:444-445 | on a TurfB course exactly those runners get NaN |
| Scoring.TurfDMasks | ai_sinba_1.py:448-449 | the masks differ exactly when only the dam's dam's sire is European under a Japanese-type sire |
| Scoring.TurfDLineageMisfires | ai_sinba_1.py:448-449 | on a TurfD course exactly those runners get NaN |
| Scoring.DartAMasks | ai_sinba_1.py:450-451 | the masks differ exactly for a non-Sunday horse, not 米国A/B, whose sire is not US-type |
| Scoring.DartALineageMisfires | ai_sinba_1.py:450-451 | on a DartA course exactly those runners get NaN |
| Scoring.MisalignedUpdateClearsBlood | ai_sinba_1.py:444-451 | a runner hit by any of the three misaligned updates ends with blood_point 0 |
| Scoring.UnselectedOutsideTables | ai_sinba_1.py:289-487 | no blood update selects a runner whose sire has no own rule and no pace group, on a course in no group |
| Scoring.BloodZeroOutsideTables | ai_sinba_1.py:266-487 | such a runner ends with blood_point 0 |
| Scoring.AlignedPoints | ai_sinba_1.py:489-524 | a list of updates with equal masks never yields NaN and adds the deltas of the selecting updates |
| Scoring.AdvantagePoint | ai_sinba_1.py:489-524 | advantage_point is the distance part plus the gate part plus the position part plus 1 for the season bonus |
| Scoring.GateMasks | ai_sinba_1.py:502-515 | each gate update selects its gate band and its course list |
| Scoring.GateContributionBounded | ai_sinba_1.py:494-515 | at most one gate update selects a runner, so the gate part is -1, 0 or +1 |
| Scoring.SeasonInJoined | ai_sinba_1.py:522-524 | the season test on 実績季節 (filled with 無し) holds iff one top-two row has the runner's season |
| Scoring.SeasonBonusOfRow | ai_sinba_1.py:522-524 | on a row whose 実績季節 joins the seasons of some top-two rows, the season test holds iff one of them has the runner's season |
| Scoring.SeasonBonusIffTopTwoInSeason | ai_sinba_1.py:522-524 | the season bonus is given iff the horse finished first or second at a JRA course in an earlier race of the same season |
| Scoring.JockeyBonusAfterTopTwoRide | ai_sinba_1.py:538-540 | a jockey who finished top two on the horse before at a JRA course gets the bonus |
| Scoring.JockeyBonusIsSubstringTest | ai_sinba_1.py:538-540 | the converse fails: ids 01126 and 05339 joined contain 12605 |
| Scoring.MarginBucket | ai_sinba_1.py:542-554 | the margin buckets, in [-2, 3], 0 when there is no previous run |
| Scoring.MarginBucketMonotone | ai_sinba_1.py:542-554 | a larger margin never scores more |
| Scoring.MarginPointsAreBucket | ai_sinba_1.py:542-554 | the six updates give exactly the bucket of the previous margin |
| Scoring.RelBucket | ai_sinba_1.py:563-582 | the 実質着順 buckets, in [-2, 3], 0 in [0.4, 0.6) or when missing |
| Scoring.RelBucketMonotone | ai_sinba_1.py:563-582 | a better relative finish never scores less |
| Scoring.RelPointsAreBucket | ai_sinba_1.py:563-572 | the five updates of one earlier run add the bucket of its 実質着順 |
| Scoring.RankPointsDecompose | ai_sinba_1.py:561-583 | 着順_point is 1 for a 4th-8th last time plus both buckets, in [-4, 7] |
| Scoring.ScoresOf | ai_sinba_1.py:528-586 | camp = jockey + trainer; jockey is 2 for a favoured jockey plus 2 for the earlier top-two ride; trainer 2 iff favoured; rank is 1 for a 4th-8th last time plus the buckets of the two earlier relative finishes; margin as above |
| Scoring.ScoresFromColumns | ai_sinba_1.py:527-586 | the point columns, each the fold of its update list, give the runner's `ScoresOf` (NaN blood filled with 0, camp = jockey + trainer) |
| Scoring.Assemble | ai_sinba_1.py:584-586 | the scores frame built row by row from the point columns equals `ScoresOf` of every runner |
| Scoring.Quinella | ai_sinba_1.py:610 | the label is 0 or 1 |
| Scoring.QuinellaMarksTopTwo | ai_sinba_1.py:610 | for a real placing the label is 1 exactly for first and second |
| Scoring.Join | ai_sinba_1.py:264 | left merge on horse_id: every race row kept in order, with its pedigree when the horse has one |
| Scoring.Peds.constructor | ai_sinba_1.py:87-95 | starts with the given pedigree table and empty frames, with neither p_p nor merge done |
| Scoring.PedigreeTable | ai_sinba_1.py:192-259 | one pedigree row for each horse of the loaded table and no other, each the horse's `PedigreeOf` |
| Scoring.Peds.PreProcess | ai_sinba_1.py:192-261 | `df` becomes the pedigree table of the loaded horses and p_p is recorded as done; nothing else changes and the object stays well formed |
| Scoring.Peds.Merge | ai_sinba_1.py:263-525 | fails, changing nothing, iff p_p has not run (Python raises a KeyError on the empty `df`); otherwise joins, fills blood_point and advantage_point with the folds of their update lists, and records merge as done |
| Scoring.Peds.Point | ai_sinba_1.py:527-586 | fails, changing nothing, iff merge has not run (Python raises an AttributeError on the empty `merged_df`); otherwise every runner's scores are those of `ScoresOf`; the object stays well formed |

## Left out

- Reading the pedigree pickles in `Peds.__init__` and the tqdm progress bar are I/O. The constructor takes the loaded table as a parameter.
- The `[0::4]` … `[3::4]` interleaving of the pedigree table depends on the pickle layout. Each horse is given as four ancestor rows.
- Date-string parsing is left out. Dates are day numbers and the month is an input field.
- Per-race mean/standard-deviation z-scoring, `point_all` and the final column selection are left out. They need square roots and floating point, and they depend on the `.replace(0)` call.
- The 上り averages are floating-point times and are not modelled.
- RandomForest training and evaluation are not modelled. Only the quinella label is.
- Scoring.MarginBucket assumes margins are exact multiples of 0.1 s. A float margin between two tenths (such as 0.25) would fall into no bucket in the source.
- Scoring.RelBucket compares exact reals. Float rounding at the bucket edges is not modelled.
- Text.ParseNat accepts ASCII digit strings only. On other numerals the model gives a missing value, or Raises where the source converts with `astype(int)`, while the source gives a number: `int` (the age at ai_sinba_1.py:23 and the distance at :39) also accepts other Unicode digits, surrounding whitespace, a sign ("-1", "+3") and underscores between digits ("1_6"); `pd.to_numeric` (the finish at :21 and :40, the body weight at :47) also accepts signs, decimal forms ("3.0") and exponents ("1e1"). The scraped columns hold plain unsigned numerals.
- Text.FirstDigitRun and Text.TextBeforeDigits treat only ASCII digits as digits, while `\d` in Python regular expressions also matches other Unicode digits.
- Text.Occurs and every other string operation work on code points. There is no normalisation.
- Scoring.Peds.PreProcess keys the pedigree table by horse id. A horse appearing twice in the pickles, which would duplicate rows in the merge, is not modelled.
- LookBack.Results.PreProcess and LookBack.Results.Merge: when a row raises, Python has already replaced `self.results` (or `self.hr`) with a partially converted copy. A half-converted frame is not a table of typed rows, so the model states nothing about that field on the raising path.
- LookBack.Results.Merge: the pandas column order, dtypes and index of the concatenated frame are not modelled. The merged rows come out in the order of the unique dates.
- Scoring.Peds.Point: the `pointed` frame is modelled as the integer scores. The float columns derived from them are left out, as above.
