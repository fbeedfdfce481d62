/** The spreadsheet extraction of extraire_donnees_csv, over the table that
    `pd.read_csv(..., header=None)` yields: 25 candidate titles from the 5x5
    block below the header, and the four rewards found by keyword. */
module DataManager {
  import opened Records

  /** A cell of the table, as the text `str(cell)` gives; None stands for NaN. */
  type Cell = Option<string>

  /** The data frame: rows of cells, every row `width` cells long. */
  datatype Table = Table(rows: seq<seq<Cell>>, width: nat)

  predicate Rectangular(t: Table)
  {
    forall i :: 0 <= i < |t.rows| ==> |t.rows[i]| == t.width
  }

  /** An extracted objective: `{"titre": ..., "poids": ...}`. */
  datatype Draft = Draft(titre: string, poids: int)

  /** The result: the titles, and the rewards by tier key (a reward copied from
      a NaN cell is NaN). */
  datatype CsvData = CsvData(objectifs: seq<Draft>, recompenses: map<string, Cell>)

  const EmptyTitle: string := "Objectif vide"
  const Undefined: string := "Non d\U{e9}fini"
  /** Column 11 (L) holds the reward of a tier's line. */
  const RewardColumn: nat := 11

  // ---------------------------------------------------------------------
  // Titles

  /** The length of the slice `1:6` of a range of `n` indices. */
  function SliceLength(n: nat): (k: nat)
    ensures k <= 5
    ensures k == 5 <==> n >= 6
    ensures n >= 1 ==> k == n - 1 || k == 5
    ensures n <= 1 ==> k == 0
  {
    if n <= 1 then 0 else if n >= 6 then 5 else n - 1
  }

  function Flatten(rs: seq<seq<Cell>>): seq<Cell>
  {
    if rs == [] then [] else rs[0] + Flatten(rs[1..])
  }

  lemma {:induction false} FlattenAt(rs: seq<seq<Cell>>, w: nat, i: nat, j: nat)
    requires forall k :: 0 <= k < |rs| ==> |rs[k]| == w
    requires i < |rs| && j < w
    ensures |Flatten(rs)| == |rs| * w
    ensures i * w + j < |Flatten(rs)| && Flatten(rs)[i * w + j] == rs[i][j]
  {
    FlattenLength(rs, w);
    if i > 0 {
      FlattenAt(rs[1..], w, i - 1, j);
      assert i * w + j == w + ((i - 1) * w + j);
      FlattenLength(rs[1..], w);
    }
  }

  lemma {:induction false} FlattenLength(rs: seq<seq<Cell>>, w: nat)
    requires forall k :: 0 <= k < |rs| ==> |rs[k]| == w
    ensures |Flatten(rs)| == |rs| * w
  {
    if rs != [] {
      FlattenLength(rs[1..], w);
      assert |rs| * w == w + |rs[1..]| * w;
    }
  }

  /** `df.iloc[1:6, 1:6]`: rows 1 to 5 and columns 1 to 5, clipped to the
      table. */
  function GridBlock(t: Table): (block: seq<seq<Cell>>)
    requires Rectangular(t)
    ensures |block| == SliceLength(|t.rows|)
    ensures forall i :: 0 <= i < |block| ==> |block[i]| == SliceLength(t.width)
    ensures forall i, j :: 0 <= i < |block| && 0 <= j < SliceLength(t.width) ==> block[i][j] == t.rows[1 + i][1 + j]
  {
    var w := SliceLength(t.width);
    seq(SliceLength(|t.rows|), i requires 0 <= i < SliceLength(|t.rows|) =>
      if w == 0 then [] else t.rows[1 + i][1 .. 1 + w])
  }

  /** `.values.flatten()`: the block read row by row. */
  function GridCells(t: Table): seq<Cell>
    requires Rectangular(t)
  {
    Flatten(GridBlock(t))
  }

  /** The grid cells are the 5x5 block in row-major order: at most 25 of
      them, exactly 25 when the table has 6 rows and 6 columns. */
  lemma GridCellsRowMajor(t: Table)
    requires Rectangular(t)
    ensures |GridCells(t)| == SliceLength(|t.rows|) * SliceLength(t.width)
    ensures |GridCells(t)| <= 25
    ensures |t.rows| >= 6 && t.width >= 6 ==> |GridCells(t)| == 25
    ensures forall k :: 0 <= k < |GridCells(t)| ==> InRowMajorPlace(t, k, GridCells(t)[k])
  {
    FlattenLength(GridBlock(t), SliceLength(t.width));
    AtMostFiveByFive(SliceLength(|t.rows|), SliceLength(t.width));
    forall k | 0 <= k < |GridCells(t)| ensures InRowMajorPlace(t, k, GridCells(t)[k]) {
      GridCellAt(t, k);
    }
  }

  /** Cell `c` is the `k`-th of the block read row by row: it sits in row
      `1 + k / w` and column `1 + k % w` of the table, `w` being the block's
      width. */
  predicate InRowMajorPlace(t: Table, k: nat, c: Cell)
  {
    var w := SliceLength(t.width);
    && w > 0
    && 1 + k / w < |t.rows|
    && 1 + k % w < |t.rows[1 + k / w]|
    && t.rows[1 + k / w][1 + k % w] == c
  }

  lemma GridCellAt(t: Table, k: nat)
    requires Rectangular(t)
    requires k < SliceLength(|t.rows|) * SliceLength(t.width)
    ensures k < |GridCells(t)|
    ensures InRowMajorPlace(t, k, GridCells(t)[k])
  {
    var block := GridBlock(t);
    var w := SliceLength(t.width);
    var h := SliceLength(|t.rows|);
    RowMajorIndex(k, h, w);
    var i, j := k / w, k % w;
    FlattenAt(block, w, i, j);
    assert block[i][j] == t.rows[1 + i][1 + j];
  }

  lemma AtMostFiveByFive(h: nat, w: nat)
    requires h <= 5 && w <= 5
    ensures h * w <= 25
    ensures h == 5 && w == 5 ==> h * w == 25
  {
    assert h * w <= 5 * w by {
      assert (5 - h) * w >= 0;
    }
  }

  lemma RowMajorIndex(k: nat, h: nat, w: nat)
    requires k < h * w
    ensures w > 0
    ensures k / w < h && k % w < w
    ensures k == (k / w) * w + k % w
  {
    assert w != 0 by {
      assert h * 0 == 0;
    }
    assert (k / w) * w <= k;
    assert (h - k / w) * w > 0;
  }

  /** `titre.replace("\n", " ")`. */
  function ReplaceNewlines(s: string): (r: string)
    ensures |r| == |s|
    ensures forall i :: 0 <= i < |s| ==> r[i] == (if s[i] == '\n' then ' ' else s[i])
    ensures '\n' !in r
  {
    if s == [] then [] else [if s[0] == '\n' then ' ' else s[0]] + ReplaceNewlines(s[1..])
  }

  /** A title: the cell's text with its line breaks turned into spaces, or
      the placeholder for a NaN cell. */
  function CleanTitle(c: Cell): (title: string)
    ensures '\n' !in title
    ensures c.None? ==> title == EmptyTitle
    ensures c.Some? ==> title == ReplaceNewlines(c.value)
  {
    // The placeholder holds no line break, so its replace is the identity.
    if c.Some? then ReplaceNewlines(c.value) else EmptyTitle
  }

  // ---------------------------------------------------------------------
  // Rewards

  /** ASCII upper-casing of one character. */
  function UpperChar(c: char): char
  {
    if 'a' <= c <= 'z' then (c as int - 32) as char else c
  }

  function Upper(s: string): (u: string)
    ensures |u| == |s|
    ensures forall i :: 0 <= i < |s| ==> u[i] == UpperChar(s[i])
  {
    if s == [] then [] else [UpperChar(s[0])] + Upper(s[1..])
  }

  /** Python's `sub in s`: `sub` occurs at some position of `s`. */
  predicate Contains(s: string, sub: string)
  {
    if |s| < |sub| then false
    else s[..|sub|] == sub || Contains(s[1..], sub)
  }

  function CellText(c: Cell): string
  {
    match c
    case Some(s) => s
    case None => "nan"
  }

  /** `" ".join(str(cell) for cell in row.values)`. */
  function JoinLine(row: seq<Cell>): string
  {
    if row == [] then ""
    else if |row| == 1 then CellText(row[0])
    else CellText(row[0]) + " " + JoinLine(row[1..])
  }

  function Keyword(t: Tier): string
  {
    match t
    case Bronze => "BRONZE"
    case Argent => "ARGENT"
    case Or => "OR"
    case Platine => "PLATINE"
  }

  function Fallback(t: Tier): string
  {
    match t
    case Bronze => "Lot Bronze"
    case Argent => "Lot Argent"
    case Or => "Lot Or"
    case Platine => "Lot Platine"
  }

  /** The tier a line is assigned to by the `if`/`elif` chain: the first of
      BRONZE, ARGENT, OR, PLATINE found in the upper-cased line. */
  function ClassifyLine(line: string): (r: Option<Tier>)
    ensures r.Some? ==> Contains(Upper(line), Keyword(r.value))
    ensures r.Some? ==> forall t: Tier :: t.Quarters() < r.value.Quarters() ==> !Contains(Upper(line), Keyword(t))
    ensures r == None <==> forall t: Tier :: !Contains(Upper(line), Keyword(t))
  {
    var u := Upper(line);
    if Contains(u, "BRONZE") then Some(Bronze)
    else if Contains(u, "ARGENT") then Some(Argent)
    else if Contains(u, "OR") then Some(Or)
    else if Contains(u, "PLATINE") then Some(Platine)
    else None
  }

  /** The value stored for a matching row: cell 11 when the row is long
      enough, the tier's "Lot ..." text otherwise. */
  function RewardOf(row: seq<Cell>, width: nat, t: Tier): Cell
    requires |row| == width
  {
    if width > RewardColumn then row[RewardColumn] else Some(Fallback(t))
  }

  function Defaults(): (m: map<string, Cell>)
    ensures m.Keys == TierKeys
  {
    map["bronze" := Some(Undefined), "argent" := Some(Undefined),
        "or" := Some(Undefined), "platine" := Some(Undefined)]
  }

  /** One step of the loop over `df.iterrows()`. */
  function ApplyRow(m: map<string, Cell>, row: seq<Cell>, width: nat): map<string, Cell>
    requires |row| == width
  {
    match ClassifyLine(JoinLine(row))
    case Some(t) => m[t.Key() := RewardOf(row, width, t)]
    case None => m
  }

  /** The rewards after the loop has seen `rows`, in order. */
  function RewardsAfter(rows: seq<seq<Cell>>, width: nat): map<string, Cell>
    requires forall i :: 0 <= i < |rows| ==> |rows[i]| == width
  {
    if rows == [] then Defaults()
    else ApplyRow(RewardsAfter(rows[..|rows| - 1], width), rows[|rows| - 1], width)
  }

  lemma {:induction false} RewardKeysAlwaysFour(rows: seq<seq<Cell>>, width: nat)
    requires forall i :: 0 <= i < |rows| ==> |rows[i]| == width
    ensures RewardsAfter(rows, width).Keys == TierKeys
  {
    if rows != [] {
      RewardKeysAlwaysFour(rows[..|rows| - 1], width);
    }
  }

  predicate RowMatches(row: seq<Cell>, t: Tier)
  {
    ClassifyLine(JoinLine(row)) == Some(t)
  }

  /** A row assigned to another tier, or to none, leaves a tier's entry. */
  lemma ApplyRowKeepsOtherTier(m: map<string, Cell>, row: seq<Cell>, width: nat, t: Tier)
    requires |row| == width && t.Key() in m
    requires !RowMatches(row, t)
    ensures t.Key() in ApplyRow(m, row, width)
    ensures ApplyRow(m, row, width)[t.Key()] == m[t.Key()]
  {
  }

  /** A row assigned to a tier stores its reward under the tier's key. */
  lemma ApplyRowAssigns(m: map<string, Cell>, row: seq<Cell>, width: nat, t: Tier)
    requires |row| == width
    requires RowMatches(row, t)
    ensures t.Key() in ApplyRow(m, row, width)
    ensures ApplyRow(m, row, width)[t.Key()] == RewardOf(row, width, t)
  {
  }

  /** A tier that no row is assigned to keeps "Non défini". */
  lemma {:induction false} UnmatchedTierKeepsDefault(rows: seq<seq<Cell>>, width: nat, t: Tier)
    requires forall i :: 0 <= i < |rows| ==> |rows[i]| == width
    requires forall i :: 0 <= i < |rows| ==> !RowMatches(rows[i], t)
    ensures t.Key() in RewardsAfter(rows, width)
    ensures RewardsAfter(rows, width)[t.Key()] == Some(Undefined)
  {
    if rows != [] {
      var init, last := rows[..|rows| - 1], rows[|rows| - 1];
      assert forall i :: 0 <= i < |init| ==> init[i] == rows[i];
      UnmatchedTierKeepsDefault(init, width, t);
      ApplyRowKeepsOtherTier(RewardsAfter(init, width), last, width, t);
    }
  }

  /** The last row assigned to a tier decides its reward: later matching rows
      overwrite earlier ones. */
  lemma {:induction false} LastMatchingRowWins(rows: seq<seq<Cell>>, width: nat, t: Tier, k: int)
    requires forall i :: 0 <= i < |rows| ==> |rows[i]| == width
    requires 0 <= k < |rows| && RowMatches(rows[k], t)
    requires forall i :: k < i < |rows| ==> !RowMatches(rows[i], t)
    ensures t.Key() in RewardsAfter(rows, width)
    ensures RewardsAfter(rows, width)[t.Key()] == RewardOf(rows[k], width, t)
  {
    var init, last := rows[..|rows| - 1], rows[|rows| - 1];
    assert forall i :: 0 <= i < |init| ==> init[i] == rows[i];
    assert RewardsAfter(rows, width) == ApplyRow(RewardsAfter(init, width), last, width);
    if k < |rows| - 1 {
      assert forall i :: k < i < |init| ==> !RowMatches(init[i], t);
      LastMatchingRowWins(init, width, t, k);
      ApplyRowKeepsOtherTier(RewardsAfter(init, width), last, width, t);
    } else {
      ApplyRowAssigns(RewardsAfter(init, width), last, width, t);
    }
  }

  /** A line holding both OR and PLATINE (and neither BRONZE nor ARGENT) is
      assigned to `or`: the chain tests OR first. */
  lemma OrShadowsPlatine(line: string)
    requires Contains(Upper(line), "OR") && Contains(Upper(line), "PLATINE")
    requires !Contains(Upper(line), "BRONZE") && !Contains(Upper(line), "ARGENT")
    ensures ClassifyLine(line) == Some(Or)
  {
  }

  // ---------------------------------------------------------------------
  // The extraction

  /** The title loop: one draft of weight 1 per grid cell, in order. */
  method BuildDrafts(objectifsRaw: seq<Cell>) returns (listeObjectifs: seq<Draft>)
    ensures |listeObjectifs| == |objectifsRaw|
    ensures forall k :: 0 <= k < |objectifsRaw| ==> listeObjectifs[k] == Draft(CleanTitle(objectifsRaw[k]), 1)
  {
    listeObjectifs := [];
    for k := 0 to |objectifsRaw|
      invariant |listeObjectifs| == k
      invariant forall m :: 0 <= m < k ==> listeObjectifs[m] == Draft(CleanTitle(objectifsRaw[m]), 1)
    {
      var titre := CleanTitle(objectifsRaw[k]);
      listeObjectifs := listeObjectifs + [Draft(titre, 1)];
    }
  }

  /** The body of the row loop: the `if`/`elif` chain on the upper-cased
      line, which performs one step of the fold. */
  method MatchRow(recompenses: map<string, Cell>, row: seq<Cell>, width: nat) returns (updated: map<string, Cell>)
    requires |row| == width
    ensures updated == ApplyRow(recompenses, row, width)
  {
    var ligne := Upper(JoinLine(row));
    if Contains(ligne, "BRONZE") {
      updated := recompenses["bronze" := if width > RewardColumn then row[RewardColumn] else Some("Lot Bronze")];
    } else if Contains(ligne, "ARGENT") {
      updated := recompenses["argent" := if width > RewardColumn then row[RewardColumn] else Some("Lot Argent")];
    } else if Contains(ligne, "OR") {
      updated := recompenses["or" := if width > RewardColumn then row[RewardColumn] else Some("Lot Or")];
    } else if Contains(ligne, "PLATINE") {
      updated := recompenses["platine" := if width > RewardColumn then row[RewardColumn] else Some("Lot Platine")];
    } else {
      updated := recompenses;
    }
  }

  /** The row loop over `df.iterrows()`, from the four "Non défini" defaults. */
  method FindRewards(t: Table) returns (recompenses: map<string, Cell>)
    requires Rectangular(t)
    ensures recompenses == RewardsAfter(t.rows, t.width)
    ensures recompenses.Keys == TierKeys
  {
    recompenses := Defaults();
    for i := 0 to |t.rows|
      invariant recompenses == RewardsAfter(t.rows[..i], t.width)
    {
      assert t.rows[..i + 1][..i] == t.rows[..i];
      recompenses := MatchRow(recompenses, t.rows[i], t.width);
    }
    assert t.rows[..|t.rows|] == t.rows;
    RewardKeysAlwaysFour(t.rows, t.width);
  }

  /** extraire_donnees_csv on a table that was read: the titles of the grid
      block with weight 1, then the rewards found by the row loop. */
  method ExtraireDonneesCsv(t: Table) returns (data: CsvData)
    requires Rectangular(t)
    ensures |data.objectifs| == |GridCells(t)|
    ensures forall k :: 0 <= k < |data.objectifs| ==> data.objectifs[k] == Draft(CleanTitle(GridCells(t)[k]), 1)
    ensures forall k :: 0 <= k < |data.objectifs| ==> data.objectifs[k].poids == 1 && '\n' !in data.objectifs[k].titre
    ensures data.recompenses == RewardsAfter(t.rows, t.width)
    ensures data.recompenses.Keys == TierKeys
  {
    var objectifsRaw := GridCells(t);
    var listeObjectifs := BuildDrafts(objectifsRaw);
    var recompenses := FindRewards(t);
    data := CsvData(listeObjectifs, recompenses);
  }
}
