/** The setup screen: 25 goal rows (an entry and a star selector each) and
    one reward entry per tier, compiled into a fresh record. */
module Setup {
  import opened Records
  import Grid

  const OneStar: string := "\U{2605}"
  const TwoStars: string := "\U{2605}\U{2605}"
  const ThreeStars: string := "\U{2605}\U{2605}\U{2605}"

  /** The values of the difficulty selector. */
  const StarLabels: set<string> := {OneStar, TwoStars, ThreeStars}

  const RowCount: nat := 25
  const CreationDate: string := "2026-01-14"

  /** One GoalRow widget, reduced to what get_data reads from it: the text of
      the entry and the selected difficulty label. */
  datatype GoalRow = GoalRow(entryText: string, difficulty: string)

  /** A row as GoalRow.__init__ builds it: the given text, difficulty one star. */
  function NewGoalRow(defaultText: string): (row: GoalRow)
    ensures row.entryText == defaultText
    ensures row.difficulty in StarLabels && |row.difficulty| == 1
  {
    GoalRow(defaultText, OneStar)
  }

  /** The star label to weight mapping of get_data: the weight is the number
      of stars, one to three. */
  function StarWeight(selected: string): (w: int)
    requires selected in StarLabels
    ensures w == |selected|
    ensures 1 <= w <= 3
  {
    map[OneStar := 1, TwoStars := 2, ThreeStars := 3][selected]
  }

  /** get_data: the entry text verbatim, the weight of the selected label,
      not completed and not dated. */
  function GetData(row: GoalRow): (o: Objective)
    requires row.difficulty in StarLabels
    ensures o.titre == row.entryText
    ensures o.poids == |row.difficulty|
    ensures !o.valide && o.dateValidation == None
  {
    Objective(row.entryText, StarWeight(row.difficulty), false, None)
  }

  /** The widgets save_and_start reads: the goal rows in screen order and the
      reward entries by tier key. */
  datatype SetupScreen = SetupScreen(goalRows: seq<GoalRow>, rewards: map<string, string>)

  /** What the screen's widgets allow: the 25 rows and 4 reward entries that
      __init__ creates, each selector showing one of its three labels. Typing
      and selecting change only the texts and the labels. */
  predicate AsBuilt(s: SetupScreen)
  {
    && |s.goalRows| == RowCount
    && s.rewards.Keys == TierKeys
    && forall i :: 0 <= i < |s.goalRows| ==> s.goalRows[i].difficulty in StarLabels
  }

  /** SetupScreen.__init__: 25 rows without default text and four empty
      reward entries. */
  function NewSetupScreen(): (s: SetupScreen)
    ensures AsBuilt(s)
    ensures forall i :: 0 <= i < |s.goalRows| ==> s.goalRows[i] == NewGoalRow("")
    ensures forall k :: k in s.rewards ==> s.rewards[k] == ""
  {
    SetupScreen(seq(RowCount, i => NewGoalRow("")), map k | k in TierKeys :: "")
  }

  /** save_and_start: the record built from the rows, in row order, the
      reward texts, and the fixed creation date. */
  function SaveAndStart(s: SetupScreen): (c: Config)
    requires forall i :: 0 <= i < |s.goalRows| ==> s.goalRows[i].difficulty in StarLabels
    ensures |c.objectifs| == |s.goalRows|
    ensures forall i :: 0 <= i < |c.objectifs| ==> c.objectifs[i] == GetData(s.goalRows[i])
    ensures c.recompenses == s.rewards
    ensures c.dateCreation == CreationDate
  {
    Config(seq(|s.goalRows|, i requires 0 <= i < |s.goalRows| => GetData(s.goalRows[i])),
           s.rewards, CreationDate)
  }

  /** The record saved from any state of the screen holds 25 fresh objectives
      whose weights are one to three and whose titles are the entries, and
      exactly the four reward keys. */
  lemma SavedRecordShape(s: SetupScreen)
    requires AsBuilt(s)
    ensures |SaveAndStart(s).objectifs| == 25
    ensures SaveAndStart(s).recompenses.Keys == TierKeys
    ensures forall i :: 0 <= i < 25 ==>
              && SaveAndStart(s).objectifs[i].titre == s.goalRows[i].entryText
              && 1 <= SaveAndStart(s).objectifs[i].poids <= 3
              && !SaveAndStart(s).objectifs[i].valide
              && SaveAndStart(s).objectifs[i].dateValidation == None
    ensures DatesConsistent(SaveAndStart(s).objectifs)
  {
    var c := SaveAndStart(s);
    forall i | 0 <= i < 25 ensures 1 <= c.objectifs[i].poids <= 3 {
      assert c.objectifs[i] == GetData(s.goalRows[i]);
    }
  }

  /** An untouched screen saves 25 objectives of weight 1 with empty titles. */
  lemma UntouchedScreenSavesDefaults()
    ensures |SaveAndStart(NewSetupScreen()).objectifs| == 25
    ensures forall i :: 0 <= i < |SaveAndStart(NewSetupScreen()).objectifs| ==>
              SaveAndStart(NewSetupScreen()).objectifs[i] == Objective("", 1, false, None)
  {
    var s := NewSetupScreen();
    var c := SaveAndStart(s);
    forall i | 0 <= i < |c.objectifs| ensures c.objectifs[i] == Objective("", 1, false, None) {
      assert c.objectifs[i] == GetData(s.goalRows[i]);
      assert s.goalRows[i] == NewGoalRow("");
    }
  }

  /** A freshly saved board weighs between 25 and 75 and has nothing
      completed, so it starts at ratio 0 with no tier unlocked. */
  lemma FreshBoardStartsAtZero(s: SetupScreen)
    requires AsBuilt(s)
    ensures 25 <= Grid.TotalWeight(SaveAndStart(s).objectifs) <= 75
    ensures Grid.CompletedWeight(SaveAndStart(s).objectifs) == 0
    ensures !Grid.TierUnlocked(Bronze, Grid.ProgressRatio(SaveAndStart(s).objectifs, Grid.TotalWeight(SaveAndStart(s).objectifs)))
  {
    var objs := SaveAndStart(s).objectifs;
    SavedRecordShape(s);
    Grid.TotalWeightBounds(objs, 1, 3);
    Grid.RatioZeroWhenNothingCompleted(objs, Grid.TotalWeight(objs));
  }
}
