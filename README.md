# Bingoal — a verified model of the board engine

Bingoal is a desktop "goal bingo" for the year 2026. The board holds 25
objectives. Each objective has a title, a weight of one to three stars
(`poids`), a completed flag (`valide`) and a completion time stamp
(`date_validation`). Four reward tiers (bronze, argent, or, platine) unlock
when the completed weight reaches 25 %, 50 %, 75 % and 100 % of the total
weight. The board locks one day before 2026-12-31.

This project models and proves four parts of that program:

- the grid screen's board engine (`records.dfy`, `grid_screen.dfy`): the
  total weight and the deadline lock computed at load, the toggle of one
  objective, the exact progress ratio, the tier tests and the victory
  signal. `GridScreen` is a class whose fields the methods update in place.
  The source's `objectifs` and `recompenses` are aliases into `full_data`;
  here they are read-only views (`Objectifs()`, `Recompenses()`) of the one
  `fullData` field, so a write through either is a write to the record. The
  JSON file is the field `saved`, which `SaveData` sets to the in-memory
  record;
- the setup screen's record assembly (`setup_screen.dfy`): the star-label
  weights, a fresh objective per row, and the record with 25 objectives,
  the four reward keys and the fixed creation date;
- the recap screen's timeline (`recap_screen.dfy`): the filter down to the
  completed, dated objectives, and the stable in-place sort newest first.
  The sort is an insertion sort on an array. It is proved to produce a
  newest-first order, to keep the entries of one date in their grid order
  (the stability of a Python `list.sort` with `reverse=True`), and to keep
  the multiset. Python compares strings by code point; `LexLess` is that
  order. `FormatOrderIsChronological` proves that, for stamps written by
  the grid screen's `%Y-%m-%d %H:%M:%S`, string order is chronological
  order;
- `extraire_donnees_csv` (`data_manager.dfy`), over an abstract table of
  rows of cells. `None` stands for a pandas NaN, whose text is `"nan"`. The
  model covers the 5x5 title block read row by row, the title cleaning,
  and the keyword `if`/`elif` chain over all rows. That chain is specified
  as the fold `RewardsAfter`.

Time is an integer count of seconds since 1970-01-01 00:00:00, on the same
naive local clock as `datetime.now()`. `datetime(2026, 12, 31)` is then
1798675200. `timedelta.days` floors the difference to whole days. Dafny's
`/` with a positive divisor floors too, so `DaysRemaining` is
`max(0, (1798675200 - now) / 86400)`. As a result, the board is locked
exactly when `now` is after 2026-12-30 00:00:00.

The ratio `current_weight / total_weight` is kept as an exact fraction. The
thresholds are multiples of 1/4, so the test `ratio >= k/4` is the integer
test `4 * current >= k * total`. `ReachesIsRatioComparison` proves this
equals the comparison of the real quotient.

The model follows these facts about the code:

- A toggle on a locked board returns silently; the code raises no error.
- The code raises no range error of its own for the toggled index; the
  index is a precondition, because tiles only pass their own index.
- Setup stores the entry text verbatim; no placeholder title is substituted.
- Loading does not validate the record. The model's typed records cannot
  express a malformed one (see "Left out").
- Saving is a plain overwrite of the file.
- Victory is signalled on every toggle that completes an objective and
  leaves the ratio at 1 or more.
- The ratio is 0 whenever the total weight is not positive.
- The tier keys are `bronze`, `argent`, `or` and `platine`.

## Model

| member | source | states |
|---|---|---|
| Grid.DaysRemaining | src/ui/grid_screen.py:114-118 | never negative; 0 exactly when `now` is after 2026-12-30 00:00:00; otherwise the number of whole days `d` with `d` days ≤ target − now < `d`+1 days |
| Grid.TotalWeight | src/ui/grid_screen.py:102 | defined as the sum of `poids` over all objectives |
| Grid.CompletedWeight | src/ui/grid_screen.py:227 | defined as the sum of `poids` over the objectives whose `valide` is set |
| Grid.TotalWeightBounds | src/ui/grid_screen.py:102 | when every weight lies in [lo, hi], the total weight lies between n·lo and n·hi |
| Grid.CompletedWeightBounds | src/ui/grid_screen.py:227 | with non-negative weights the completed weight lies between 0 and the total weight |
| Grid.NothingCompletedWeighsZero | src/ui/grid_screen.py:227 | with no objective completed, the completed weight is 0 |
| Grid.AllCompletedWeighsTotal | src/ui/grid_screen.py:227 | with every objective completed, the completed weight is the total weight |
| Grid.CompletedReachesTotalIff | src/ui/grid_screen.py:227 | with non-negative weights, completed weight ≥ total exactly when every objective of positive weight is completed (both directions) |
| Grid.ProgressRatio | src/ui/grid_screen.py:227-228 | the denominator is positive; the ratio is 0 when the total is not positive and completed/total otherwise |
| Grid.Reaches | src/ui/grid_screen.py:237 | defined as 4·num ≥ k·den, the test `ratio >= k/4` on the exact fraction |
| Grid.TierUnlocked | src/ui/grid_screen.py:234-237 | defined as reaching the tier's quarter: 1, 2, 3 or 4 for bronze, argent, or, platine, inclusive |
| Grid.Victory | src/ui/grid_screen.py:257 | defined as reaching 4 quarters, the test `ratio >= 1.0` |
| Grid.ReachesIsRatioComparison | src/ui/grid_screen.py:237 | the integer test 4·num ≥ k·den holds exactly when the real ratio num/den is at least k/4 |
| Grid.RatioInUnitInterval | src/ui/grid_screen.py:228 | with non-negative weights the ratio lies in [0, 1], as a fraction and as a real |
| Grid.RatioZeroWhenNothingCompleted | src/ui/grid_screen.py:227-228 | nothing completed gives ratio 0, which does not unlock bronze, whatever the total |
| Grid.RatioOneWhenAllCompleted | src/ui/grid_screen.py:227-228 | everything completed with a positive total gives ratio exactly 1.0, which is a victory |
| Grid.TiersNested | src/ui/grid_screen.py:234-237 | platine implies or, or implies argent, argent implies bronze; victory is exactly platine |
| Grid.VictoryIffEveryWeightedObjectiveDone | src/ui/grid_screen.py:255-258 | with non-negative weights and a positive total, victory holds exactly when every objective of positive weight is completed |
| Grid.Flipped | src/ui/grid_screen.py:211-218 | title and weight kept, flag negated, date present exactly when completed, and equal to the given stamp then |
| Grid.Toggled | src/ui/grid_screen.py:211-218 | same length, every other objective unchanged, the objective at `index` flipped |
| Grid.ToggleKeepsTotalWeight | src/ui/grid_screen.py:211-218 | a toggle leaves the total weight unchanged |
| Grid.ToggleShiftsCompletedWeight | src/ui/grid_screen.py:211-218 | a toggle adds the objective's weight to the completed weight when it completes it and removes it when it un-completes it |
| Grid.TogglePreservesDates | src/ui/grid_screen.py:211-218 | a toggle keeps "date present exactly when completed" for every objective |
| Grid.ToggleTwice | src/ui/grid_screen.py:211-218 | two toggles restore the flag; an undated uncompleted objective comes back exactly; a completed one comes back with the second stamp |
| Grid.GridScreen.constructor | src/ui/grid_screen.py:95-106 | the record is loaded as is; total weight is the sum of weights; days remaining is `DaysRemaining(now)`; locked exactly when `now` is after the lock instant |
| Grid.GridScreen.UpdateProgressDisplay | src/ui/grid_screen.py:226-245 | the ratio of the current objectives over the load-time total, and every tier's unlocked state as 4·completed ≥ k·total with a positive total |
| Grid.GridScreen.CheckVictory | src/ui/grid_screen.py:255-258 | victory exactly when the total is positive and the completed weight reaches it |
| Grid.GridScreen.SaveData | src/ui/grid_screen.py:280-282 | the persisted record becomes the in-memory record; nothing else changes |
| Grid.GridScreen.ToggleObjective | src/ui/grid_screen.py:208-224 | locked: nothing changes and no victory; otherwise only objective `index` is flipped (rewards and creation date kept), the record is persisted, the total, days and lock are unchanged; victory exactly when unlocked, the objective was uncompleted before, and the new ratio is at least 1 |
| Setup.NewGoalRow | src/ui/setup_screen.py:14-20 | the entry holds the default text and the selector shows one star |
| Setup.StarWeight | src/ui/setup_screen.py:25 | the weight is the number of stars in the label, one to three |
| Setup.GetData | src/ui/setup_screen.py:23-31 | the title is the entry text verbatim, the weight is the number of stars, not completed and no date |
| Setup.NewSetupScreen | src/ui/setup_screen.py:46-66 | 25 rows with empty default text and one star, and an empty reward entry for each of the four tier keys |
| Setup.SaveAndStart | src/ui/setup_screen.py:74-80 | one objective per row in row order, each `GetData` of its row; the reward texts by key; creation date "2026-01-14" |
| Setup.SavedRecordShape | src/ui/setup_screen.py:76-79 | from any screen state: exactly 25 objectives, titles the entries, weights in 1..3, none completed or dated, exactly the four reward keys, dates consistent with flags |
| Setup.UntouchedScreenSavesDefaults | src/ui/setup_screen.py:15-31 | an untouched screen saves 25 objectives with empty title, weight 1, not completed, no date |
| Setup.FreshBoardStartsAtZero | src/ui/setup_screen.py:76-80 | a freshly saved board weighs between 25 and 75, has completed weight 0, and unlocks no tier |
| Recap.LexLess | src/ui/recap_screen.py:68 | defined as Python's `<` on strings: the first differing code point decides, a proper prefix comes first |
| Recap.LexLessIrreflexive | src/ui/recap_screen.py:68 | no date string sorts before itself |
| Recap.LexLessAsymmetric | src/ui/recap_screen.py:68 | two date strings never sort before each other |
| Recap.LexLessTransitive | src/ui/recap_screen.py:68 | the string order of the sort key is transitive |
| Recap.LexLessTotal | src/ui/recap_screen.py:68 | two different date strings are always ordered one way or the other |
| Recap.LexLessConcat | src/ui/recap_screen.py:68 | for prefixes of equal length, the order of the concatenations is decided by the prefixes first, then the rests |
| Recap.PadOrder | src/ui/grid_screen.py:216 | zero-padded numbers of one width compare as strings exactly as they compare as numbers, and are equal exactly when the numbers are |
| Recap.Format | src/ui/grid_screen.py:216 | the 19-character `%Y-%m-%d %H:%M:%S` stamp, each field zero-padded to its width |
| Recap.FormatOrderIsChronological | src/ui/grid_screen.py:216 | for in-range dates, the `%Y-%m-%d %H:%M:%S` stamp of one sorts before the other's exactly when it is chronologically earlier |
| Recap.IsSuccess | src/ui/recap_screen.py:65 | defined as `obj['valide'] and obj.get('date_validation')`: completed, with a date that is present and not the empty string |
| Recap.DateKey | src/ui/recap_screen.py:68 | defined as the sort key `x['date_validation']`, the date string |
| Recap.NewestFirst | src/ui/recap_screen.py:68 | defined as: no entry's date string is below a later entry's, the order `sort(reverse=True)` produces |
| Recap.Successes | src/ui/recap_screen.py:65 | every kept objective is completed with a non-empty date, and each objective occurs as often as in the record when it is such a success and never otherwise |
| Recap.AdjacentImpliesNewestFirst | src/ui/recap_screen.py:68 | a sequence ordered at every adjacent pair is ordered at every pair |
| Recap.SameDateGroupsSameMultiset | src/ui/recap_screen.py:68 | two sequences with the same entries in the same order for every date are permutations of each other |
| Recap.SortNewestFirst | src/ui/recap_screen.py:68 | the array ends newest first, the entries of every date keep their order (stability), and the multiset is kept |
| Recap.ChargerDonnees | src/ui/recap_screen.py:62-71 | the timeline holds only successes, is newest first, is a permutation of the filtered record that keeps the grid order within each date, is empty when the record has no objectives key, and the empty message shows exactly when it is empty |
| DataManager.SliceLength | src/logic/data_manager.py:17 | the slice `1:6` of n indices has at most 5 elements, 5 exactly when n ≥ 6, n − 1 otherwise when n ≥ 1, and none when n ≤ 1 |
| DataManager.Flatten | src/logic/data_manager.py:17 | defined as the concatenation of the rows, in order (`.values.flatten()`) |
| DataManager.GridBlock | src/logic/data_manager.py:17 | the block has the clipped number of rows and columns, and cell (i, j) of the block is cell (1+i, 1+j) of the table |
| DataManager.GridCells | src/logic/data_manager.py:17 | defined as the flattened block `df.iloc[1:6, 1:6]` |
| DataManager.GridCellsRowMajor | src/logic/data_manager.py:17 | the titles are the block read row by row: the k-th is cell (1 + k / w, 1 + k % w); at most 25 of them, exactly 25 when the table has 6 rows and 6 columns |
| DataManager.ReplaceNewlines | src/logic/data_manager.py:23 | same length, every line break turned into a space and every other character kept, so no line break is left |
| DataManager.CleanTitle | src/logic/data_manager.py:21-23 | a NaN cell gives "Objectif vide", any other cell its text with line breaks replaced; no title holds a line break |
| DataManager.Upper | src/logic/data_manager.py:37 | same length, each character upper-cased |
| DataManager.CellText | src/logic/data_manager.py:36 | defined as `str(cell)`: the cell's text, "nan" for a NaN |
| DataManager.JoinLine | src/logic/data_manager.py:36 | defined as the texts of the row's cells joined by single spaces |
| DataManager.Contains | src/logic/data_manager.py:37-43 | defined as Python's `sub in s`: `sub` occurs at some position of `s` |
| DataManager.ClassifyLine | src/logic/data_manager.py:36-44 | the tier assigned is the first of BRONZE, ARGENT, OR, PLATINE contained in the upper-cased line: its keyword is present, no earlier keyword is, and no tier is assigned exactly when no keyword is present |
| DataManager.RewardOf | src/logic/data_manager.py:38-44 | defined as `row[11]` when the row has more than 11 cells, the tier's "Lot ..." text otherwise |
| DataManager.ApplyRow | src/logic/data_manager.py:36-44 | defined as one iteration: the reward of the row stored under the key of the tier the line is assigned to, nothing stored when none |
| DataManager.RewardsAfter | src/logic/data_manager.py:27-44 | defined as the fold of `ApplyRow` over the rows in order, from the four "Non défini" defaults |
| DataManager.Defaults | src/logic/data_manager.py:27-32 | exactly the four tier keys |
| DataManager.ApplyRowAssigns | src/logic/data_manager.py:37-44 | a row assigned to a tier stores that row's reward under the tier's key |
| DataManager.ApplyRowKeepsOtherTier | src/logic/data_manager.py:37-44 | a row not assigned to a tier leaves that tier's entry as it was |
| DataManager.RewardKeysAlwaysFour | src/logic/data_manager.py:27-44 | after any rows, the rewards hold exactly the four tier keys |
| DataManager.UnmatchedTierKeepsDefault | src/logic/data_manager.py:27-44 | a tier that no row is assigned to keeps "Non défini" |
| DataManager.LastMatchingRowWins | src/logic/data_manager.py:35-44 | a tier's reward is that of the last row assigned to it: cell 11 when rows are longer than 11 cells, its "Lot ..." text otherwise |
| DataManager.OrShadowsPlatine | src/logic/data_manager.py:41-44 | a line with OR and PLATINE but neither BRONZE nor ARGENT is assigned to `or` |
| DataManager.BuildDrafts | src/logic/data_manager.py:19-24 | one objective per grid cell, in order, with the cleaned title and weight 1 |
| DataManager.MatchRow | src/logic/data_manager.py:36-44 | the `if`/`elif` chain performs exactly one step of the reward fold |
| DataManager.FindRewards | src/logic/data_manager.py:27-44 | the rewards after the loop over all rows are the fold over the rows from the defaults, with exactly the four keys |
| DataManager.ExtraireDonneesCsv | src/logic/data_manager.py:17-46 | one objective per grid cell in row-major order with its cleaned title and weight 1, no title with a line break, and the rewards of the fold with exactly the four keys |

## Left out

- Widgets, theming, tiles, hover effects, the timer colour, the lock overlay and the victory popup are presentation only and are not modelled.
- The percentage label `int(ratio * 100)` depends on float multiplication and truncation, so it is not modelled; the tier and victory tests are.
- Grid.ReachesIsRatioComparison: relates the tests to the exact quotient, not to the IEEE double that Python computes. For weights as small as the board's, the double quotient and the exact one lie on the same side of every multiple of 1/4.
- Grid.RatioInUnitInterval, Grid.CompletedWeightBounds and Grid.VictoryIffEveryWeightedObjectiveDone: assume non-negative weights; the code does not check the weights of a loaded record.
- JSON reading and writing, the config file path and main.py's file clean-up are not modelled. A record is passed in as a `Config` value, and a save assigns the `saved` field.
- `datetime.now()` and `strftime` are parameters: the constructor takes the current time in whole seconds, and the toggle takes the stamp string. The fraction of a second in `now` is dropped, so a moment within the first second after 2026-12-30 00:00:00 counts as unlocked here, while the code already locks the board.
- `pd.read_csv` and the `None` returned for a missing file are not modelled; the extraction starts from the table read.
- DataManager.Upper: upper-cases ASCII letters only, while `str.upper` is Unicode-aware. The keywords are ASCII, but a non-ASCII letter whose upper case is ASCII is not mapped.
- DataManager.CellText: a cell is represented by its `str()` text, and a NaN by "nan"; pandas' number formatting of numeric cells is not modelled.
- The recap row's date formatting (`strptime`, `%d %b`) and its "??" fallback are library parsing inside a bare `except`, and are not modelled.
- The "read error" label of the recap screen is not modelled; it is reached through file, JSON or record-shape failures.
- Records are well-typed: every objective has `titre` (a string), `poids` (an integer), `valide` (a boolean) and `date_validation` (a string or null), so records of another shape are not modelled. Most such records make the code raise a KeyError or TypeError. A missing `poids` fails first in the total weight at load (src/ui/grid_screen.py:102); a missing `titre` or `valide` fails first in the tile constructor (src/ui/grid_screen.py:28, :53). In the recap screen such records fail in the filter and sort (src/ui/recap_screen.py:65-68) and in the recap row (src/ui/recap_screen.py:32-35). The recap catches its errors in its `except` (src/ui/recap_screen.py:77). A `valide` stored as 0 or 1 raises nothing, since the code only tests it for truth; the model's boolean does not represent it. A missing `date_validation` key behaves as null: the grid only writes it and the recap reads it with `.get`. The model's `None` represents that case.
- main.py (window bootstrap and screen switching) and data/test_csv.py (a print-only smoke script) are not part of this model.
