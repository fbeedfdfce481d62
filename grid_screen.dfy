/** The board progress engine of the grid screen: the total weight and the
    deadline lock computed at load, the toggle of one objective, the weighted
    progress ratio, the four reward tiers and the victory signal. */
module Grid {
  import opened Records

  /** datetime(2026, 12, 31), midnight, as seconds since 1970-01-01 00:00:00
      on the same (naive, local) clock as `now`. */
  const TargetDate: int := 1798675200
  const SecondsPerDay: int := 86400

  /** The last instant that still leaves one whole day: 2026-12-30 00:00:00. */
  const LockInstant: int := TargetDate - SecondsPerDay

  /** get_days_remaining: `max(0, (target - now).days)`, where `timedelta.days`
      floors the difference to whole days. */
  function DaysRemaining(now: int): (d: int)
    ensures d >= 0
    ensures d == 0 <==> now > LockInstant
    ensures d > 0 ==> d * SecondsPerDay <= TargetDate - now < (d + 1) * SecondsPerDay
  {
    var days := (TargetDate - now) / SecondsPerDay;
    if days > 0 then days else 0
  }

  // ---------------------------------------------------------------------
  // Weights

  function TotalWeight(objs: seq<Objective>): int
  {
    if objs == [] then 0 else objs[0].poids + TotalWeight(objs[1..])
  }

  /** The weight of the completed objectives (the `current_weight` sum). */
  function CompletedWeight(objs: seq<Objective>): int
  {
    if objs == [] then 0
    else (if objs[0].valide then objs[0].poids else 0) + CompletedWeight(objs[1..])
  }

  predicate NonNegativeWeights(objs: seq<Objective>)
  {
    forall i :: 0 <= i < |objs| ==> objs[i].poids >= 0
  }

  predicate WeightsWithin(objs: seq<Objective>, lo: int, hi: int)
  {
    forall i :: 0 <= i < |objs| ==> lo <= objs[i].poids <= hi
  }

  lemma {:induction false} CompletedWeightBounds(objs: seq<Objective>)
    requires NonNegativeWeights(objs)
    ensures 0 <= CompletedWeight(objs) <= TotalWeight(objs)
  {
    if objs != [] {
      assert NonNegativeWeights(objs[1..]) by {
        forall i | 0 <= i < |objs[1..]| ensures objs[1..][i].poids >= 0 {
          assert objs[1..][i] == objs[i + 1];
        }
      }
      CompletedWeightBounds(objs[1..]);
    }
  }

  lemma {:induction false} TotalWeightBounds(objs: seq<Objective>, lo: int, hi: int)
    requires WeightsWithin(objs, lo, hi)
    ensures |objs| * lo <= TotalWeight(objs) <= |objs| * hi
  {
    if objs != [] {
      assert WeightsWithin(objs[1..], lo, hi) by {
        forall i | 0 <= i < |objs[1..]| ensures lo <= objs[1..][i].poids <= hi {
          assert objs[1..][i] == objs[i + 1];
        }
      }
      TotalWeightBounds(objs[1..], lo, hi);
      assert |objs| * lo == lo + |objs[1..]| * lo;
      assert |objs| * hi == hi + |objs[1..]| * hi;
    }
  }

  lemma {:induction false} NothingCompletedWeighsZero(objs: seq<Objective>)
    requires forall i :: 0 <= i < |objs| ==> !objs[i].valide
    ensures CompletedWeight(objs) == 0
  {
    if objs != [] {
      assert !objs[0].valide;
      NothingCompletedWeighsZero(objs[1..]);
    }
  }

  lemma {:induction false} AllCompletedWeighsTotal(objs: seq<Objective>)
    requires forall i :: 0 <= i < |objs| ==> objs[i].valide
    ensures CompletedWeight(objs) == TotalWeight(objs)
  {
    if objs != [] {
      assert objs[0].valide;
      AllCompletedWeighsTotal(objs[1..]);
    }
  }

  /** With non-negative weights, the completed weight reaches the total
      exactly when every objective that weighs something is completed. */
  lemma {:induction false} CompletedReachesTotalIff(objs: seq<Objective>)
    requires NonNegativeWeights(objs)
    ensures CompletedWeight(objs) >= TotalWeight(objs)
        <==> forall i :: 0 <= i < |objs| && objs[i].poids > 0 ==> objs[i].valide
  {
    if objs != [] {
      var rest := objs[1..];
      assert NonNegativeWeights(rest) by {
        forall i | 0 <= i < |rest| ensures rest[i].poids >= 0 {
          assert rest[i] == objs[i + 1];
        }
      }
      CompletedReachesTotalIff(rest);
      CompletedWeightBounds(rest);
      if forall i :: 0 <= i < |objs| && objs[i].poids > 0 ==> objs[i].valide {
        forall i | 0 <= i < |rest| && rest[i].poids > 0 ensures rest[i].valide {
          assert rest[i] == objs[i + 1];
        }
      } else {
        var k :| 0 <= k < |objs| && objs[k].poids > 0 && !objs[k].valide;
        if k > 0 {
          assert rest[k - 1] == objs[k];
        }
      }
    }
  }

  // ---------------------------------------------------------------------
  // Progress ratio and tiers

  /** The ratio `current_weight / total_weight` kept as an exact fraction;
      the thresholds are dyadic, so comparing with them needs no float. */
  datatype Ratio = Ratio(num: int, den: int)

  function RatioValue(r: Ratio): real
    requires r.den > 0
  {
    r.num as real / r.den as real
  }

  /** The ratio of update_progress_display: completed weight over the total
      weight computed at load, or 0 when that total is not positive. */
  function ProgressRatio(objs: seq<Objective>, total: int): (r: Ratio)
    ensures r.den > 0
    ensures total <= 0 ==> r.num == 0
    ensures total > 0 ==> r.den == total && r.num == CompletedWeight(objs)
  {
    if total > 0 then Ratio(CompletedWeight(objs), total) else Ratio(0, 1)
  }

  /** `ratio >= quarters / 4` */
  predicate Reaches(r: Ratio, quarters: int)
    requires r.den > 0
  {
    4 * r.num >= quarters * r.den
  }

  /** One tier's test in update_progress_display: `ratio >= limit`, inclusive. */
  predicate TierUnlocked(t: Tier, r: Ratio)
    requires r.den > 0
  {
    Reaches(r, t.Quarters())
  }

  /** check_victory's test: `ratio >= 1.0`. */
  predicate Victory(r: Ratio)
    requires r.den > 0
  {
    Reaches(r, 4)
  }

  /** The integer comparison is the comparison of the exact ratio with the
      threshold. */
  lemma ReachesIsRatioComparison(r: Ratio, quarters: int)
    requires r.den > 0
    ensures Reaches(r, quarters) <==> RatioValue(r) >= quarters as real / 4.0
  {
    var d := r.den as real;
    var v := RatioValue(r);
    assert v * d == r.num as real;
    if Reaches(r, quarters) {
      assert 4.0 * (v * d) >= (quarters as real) * d;
      assert (4.0 * v) * d >= (quarters as real) * d;
      assert 4.0 * v >= quarters as real;
    } else {
      assert 4.0 * (v * d) < (quarters as real) * d;
      assert (4.0 * v) * d < (quarters as real) * d;
      assert 4.0 * v < quarters as real;
    }
  }

  /** The ratio lies in [0, 1] when the weights are non-negative. */
  lemma RatioInUnitInterval(objs: seq<Objective>)
    requires NonNegativeWeights(objs)
    ensures 0 <= ProgressRatio(objs, TotalWeight(objs)).num <= ProgressRatio(objs, TotalWeight(objs)).den
    ensures 0.0 <= RatioValue(ProgressRatio(objs, TotalWeight(objs))) <= 1.0
  {
    CompletedWeightBounds(objs);
    var r := ProgressRatio(objs, TotalWeight(objs));
    var d := r.den as real;
    var v := RatioValue(r);
    assert v * d == r.num as real;
    assert 0.0 <= v * d <= 1.0 * d;
  }

  lemma RatioZeroWhenNothingCompleted(objs: seq<Objective>, total: int)
    requires forall i :: 0 <= i < |objs| ==> !objs[i].valide
    ensures ProgressRatio(objs, total).num == 0
    ensures !TierUnlocked(Bronze, ProgressRatio(objs, total))
  {
    NothingCompletedWeighsZero(objs);
  }

  lemma RatioOneWhenAllCompleted(objs: seq<Objective>)
    requires forall i :: 0 <= i < |objs| ==> objs[i].valide
    requires TotalWeight(objs) > 0
    ensures RatioValue(ProgressRatio(objs, TotalWeight(objs))) == 1.0
    ensures Victory(ProgressRatio(objs, TotalWeight(objs)))
  {
    AllCompletedWeighsTotal(objs);
    WholeRatio(ProgressRatio(objs, TotalWeight(objs)));
  }

  lemma WholeRatio(r: Ratio)
    requires r.den > 0 && r.num == r.den
    ensures RatioValue(r) == 1.0
  {
    var d := r.den as real;
    assert RatioValue(r) == d / d;
  }

  /** Each tier implies the ones below it. */
  lemma TiersNested(r: Ratio)
    requires r.den > 0
    ensures TierUnlocked(Platine, r) ==> TierUnlocked(Or, r)
    ensures TierUnlocked(Or, r) ==> TierUnlocked(Argent, r)
    ensures TierUnlocked(Argent, r) ==> TierUnlocked(Bronze, r)
    ensures Victory(r) <==> TierUnlocked(Platine, r)
  {
  }

  /** On a board whose weights are non-negative and not all zero, victory is
      exactly "every objective that weighs something is completed". */
  lemma VictoryIffEveryWeightedObjectiveDone(objs: seq<Objective>)
    requires NonNegativeWeights(objs)
    requires TotalWeight(objs) > 0
    ensures Victory(ProgressRatio(objs, TotalWeight(objs)))
        <==> forall i :: 0 <= i < |objs| && objs[i].poids > 0 ==> objs[i].valide
  {
    CompletedReachesTotalIff(objs);
  }

  // ---------------------------------------------------------------------
  // Toggle

  /** The objective after toggle_objective: the flag negated, the date set to
      the current time stamp when the objective becomes completed and
      cleared when it becomes uncompleted. */
  function Flipped(o: Objective, stamp: string): (f: Objective)
    ensures f.titre == o.titre && f.poids == o.poids
    ensures f.valide != o.valide
    ensures DateMatchesFlag(f)
    ensures f.valide ==> f.dateValidation == Some(stamp)
  {
    var newState := !o.valide;
    o.(valide := newState, dateValidation := if newState then Some(stamp) else None)
  }

  function Toggled(objs: seq<Objective>, index: int, stamp: string): (r: seq<Objective>)
    requires 0 <= index < |objs|
    ensures |r| == |objs|
    ensures forall j :: 0 <= j < |objs| && j != index ==> r[j] == objs[j]
    ensures r[index] == Flipped(objs[index], stamp)
  {
    objs[index := Flipped(objs[index], stamp)]
  }

  lemma {:induction false} ToggleKeepsTotalWeight(objs: seq<Objective>, index: int, stamp: string)
    requires 0 <= index < |objs|
    ensures TotalWeight(Toggled(objs, index, stamp)) == TotalWeight(objs)
  {
    var r := Toggled(objs, index, stamp);
    if index == 0 {
      assert r[1..] == objs[1..];
    } else {
      assert r[1..] == Toggled(objs[1..], index - 1, stamp);
      ToggleKeepsTotalWeight(objs[1..], index - 1, stamp);
    }
  }

  /** A toggle moves exactly the toggled objective's weight into or out of
      the completed weight. */
  lemma {:induction false} ToggleShiftsCompletedWeight(objs: seq<Objective>, index: int, stamp: string)
    requires 0 <= index < |objs|
    ensures CompletedWeight(Toggled(objs, index, stamp))
         == CompletedWeight(objs) + (if objs[index].valide then -objs[index].poids else objs[index].poids)
  {
    var r := Toggled(objs, index, stamp);
    if index == 0 {
      assert r[1..] == objs[1..];
    } else {
      assert r[1..] == Toggled(objs[1..], index - 1, stamp);
      ToggleShiftsCompletedWeight(objs[1..], index - 1, stamp);
    }
  }

  lemma TogglePreservesDates(objs: seq<Objective>, index: int, stamp: string)
    requires 0 <= index < |objs|
    requires DatesConsistent(objs)
    ensures DatesConsistent(Toggled(objs, index, stamp))
  {
  }

  /** Toggling the same objective twice restores its flag; an objective that
      started uncompleted and undated comes back exactly, one that started
      completed comes back with the second stamp instead of its own. */
  lemma ToggleTwice(objs: seq<Objective>, index: int, first: string, second: string)
    requires 0 <= index < |objs|
    ensures Toggled(Toggled(objs, index, first), index, second)[index].valide == objs[index].valide
    ensures !objs[index].valide && objs[index].dateValidation == None ==>
              Toggled(Toggled(objs, index, first), index, second) == objs
    ensures objs[index].valide ==>
              Toggled(Toggled(objs, index, first), index, second)
              == objs[index := objs[index].(dateValidation := Some(second))]
  {
  }

  // ---------------------------------------------------------------------
  // The screen

  /** GridScreen's state: `full_data` as loaded from the record, with
      `objectifs` and `recompenses` as views of it (the source aliases them),
      the total weight and days remaining computed at load, the lock, and the
      record last persisted by save_data. */
  class GridScreen {
    var fullData: Config
    var totalWeight: int
    var daysRemaining: int
    var gameOver: bool
    var saved: Config

    function Objectifs(): seq<Objective>
      reads this
    {
      fullData.objectifs
    }

    function Recompenses(): map<string, string>
      reads this
    {
      fullData.recompenses
    }

    ghost predicate Valid()
      reads this
    {
      && totalWeight == TotalWeight(fullData.objectifs)
      && daysRemaining >= 0
      && (gameOver <==> daysRemaining == 0)
    }

    /** __init__: load the record, sum the weights, and lock the board when no
        whole day remains before the target date. */
    constructor (loaded: Config, now: int)
      ensures Valid()
      ensures fullData == loaded && saved == loaded
      ensures totalWeight == TotalWeight(loaded.objectifs)
      ensures daysRemaining == DaysRemaining(now)
      ensures gameOver <==> now > LockInstant
    {
      fullData := loaded;
      saved := loaded;
      totalWeight := TotalWeight(loaded.objectifs);
      var days := DaysRemaining(now);
      daysRemaining := days;
      gameOver := false;
      if days == 0 {
        gameOver := true;
      }
    }

    /** The ratio and the unlocked state of each tier, as update_progress_display
        derives them from the current objectives and the total weight. */
    method UpdateProgressDisplay() returns (ratio: Ratio, unlocked: map<Tier, bool>)
      requires Valid()
      ensures ratio.den > 0
      ensures totalWeight > 0 ==> ratio.num == CompletedWeight(Objectifs()) && ratio.den == totalWeight
      ensures totalWeight <= 0 ==> ratio.num == 0
      ensures forall t: Tier :: t in unlocked
      ensures forall t: Tier ::
                (unlocked[t] <==> totalWeight > 0 && 4 * CompletedWeight(Objectifs()) >= t.Quarters() * totalWeight)
    {
      ratio := ProgressRatio(fullData.objectifs, totalWeight);
      unlocked := map t: Tier :: TierUnlocked(t, ratio);
    }

    /** check_victory: the board is complete when the ratio reaches 1.0. */
    method CheckVictory() returns (victory: bool)
      requires Valid()
      ensures victory <==> totalWeight > 0 && CompletedWeight(Objectifs()) >= totalWeight
      ensures victory <==> Victory(ProgressRatio(Objectifs(), totalWeight))
    {
      var ratio, _ := UpdateProgressDisplay();
      victory := ratio.num >= ratio.den;
    }

    /** save_data: the persisted record becomes the in-memory record. */
    method SaveData()
      modifies this
      ensures saved == fullData
      ensures fullData == old(fullData) && totalWeight == old(totalWeight)
      ensures daysRemaining == old(daysRemaining) && gameOver == old(gameOver)
    {
      saved := fullData;
    }

    /** toggle_objective: refused when locked; otherwise flips the objective
        at `index`, dates or undates it, persists the record, and signals
        victory when the objective became completed and the ratio reached 1. */
    method ToggleObjective(index: int, stamp: string) returns (victory: bool)
      requires Valid()
      requires 0 <= index < |Objectifs()|
      modifies this
      ensures Valid()
      ensures totalWeight == old(totalWeight)
      ensures daysRemaining == old(daysRemaining) && gameOver == old(gameOver)
      ensures old(gameOver) ==> fullData == old(fullData) && saved == old(saved) && !victory
      ensures !old(gameOver) ==>
                fullData == old(fullData).(objectifs := Toggled(old(Objectifs()), index, stamp))
                && saved == fullData
      ensures victory <==> !old(gameOver) && !old(Objectifs()[index].valide)
                           && Victory(ProgressRatio(Objectifs(), totalWeight))
    {
      if gameOver {
        return false;
      }
      ghost var before := fullData.objectifs;
      var currentState := fullData.objectifs[index].valide;
      var newState := !currentState;
      var obj := fullData.objectifs[index].(valide := newState);
      if newState {
        obj := obj.(dateValidation := Some(stamp));
      } else {
        obj := obj.(dateValidation := None);
      }
      fullData := fullData.(objectifs := fullData.objectifs[index := obj]);
      assert fullData.objectifs == Toggled(before, index, stamp);
      ToggleKeepsTotalWeight(before, index, stamp);
      SaveData();
      victory := false;
      if newState {
        victory := CheckVictory();
      }
    }
  }
}
