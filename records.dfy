/** Values shared by the screens of Bingoal: the objective record stored in
    data/bingo_config.json, the record itself, and the four reward tiers. */
module Records {

  datatype Option<T> = None | Some(value: T)

  /** One of the 25 objectives, with the JSON keys of the record:
      `titre`, `poids` (weight), `valide` (completed) and `date_validation`. */
  datatype Objective = Objective(titre: string, poids: int, valide: bool, dateValidation: Option<string>)

  /** The whole persisted record: `objectifs`, `recompenses` and `date_creation`. */
  datatype Config = Config(objectifs: seq<Objective>, recompenses: map<string, string>, dateCreation: string)

  /** The reward tiers, in the order in which the screens list and test them. */
  datatype Tier = Bronze | Argent | Or | Platine {

    /** The key of the tier in the `recompenses` dictionary. */
    function Key(): string
    {
      match this
      case Bronze => "bronze"
      case Argent => "argent"
      case Or => "or"
      case Platine => "platine"
    }

    /** The threshold of the tier, in quarters of the progress ratio:
        0.25, 0.50, 0.75 and 1.0. */
    function Quarters(): int
    {
      match this
      case Bronze => 1
      case Argent => 2
      case Or => 3
      case Platine => 4
    }
  }

  const TierKeys: set<string> := {"bronze", "argent", "or", "platine"}

  /** The invariant the board keeps for every objective: a date is present
      exactly when the objective is completed. */
  predicate DateMatchesFlag(o: Objective)
  {
    o.dateValidation.Some? <==> o.valide
  }

  predicate DatesConsistent(objs: seq<Objective>)
  {
    forall i :: 0 <= i < |objs| ==> DateMatchesFlag(objs[i])
  }
}
