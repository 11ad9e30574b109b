/**
 * The registration sheet: a grid of text cells whose first row is the header
 * and whose column A holds each registrant's Telegram id. The bot reads it by
 * scanning column A and writes it one cell, one row range or one appended row
 * at a time.
 */
module RowStore {
  import opened Wrappers
  import opened Text

  /** The stored rows, top to bottom; a row may be shorter than its neighbours. */
  type Rows = seq<seq<string>>

  /** Column J, 1-based: the attendance confirmation. */
  const ConfirmedColumn: nat := 10

  /** A registration row spans columns A to J. */
  const RowWidth: nat := 10

  /** The text of a cell (0-based row and column); a cell that was never written reads as "". */
  function Cell(rows: Rows, r: nat, c: nat): string {
    if r < |rows| && c < |rows[r]| then rows[r][c] else ""
  }

  /** `col_values(c + 1)`: the text of column `c` in every row. */
  function Column(rows: Rows, c: nat): (col: seq<string>)
    ensures |col| == |rows|
    ensures forall i :: 0 <= i < |rows| ==> col[i] == Cell(rows, i, c)
  {
    seq(|rows|, i requires 0 <= i < |rows| => Cell(rows, i, c))
  }

  /** The first row at or below 0-based row `i` whose column A reads `key`, as a 1-based row number. */
  function FindFrom(rows: Rows, key: string, i: nat): (r: Option<nat>)
    ensures r.Some? ==> i < r.value <= |rows| && Cell(rows, r.value - 1, 0) == key
    ensures r.Some? ==> forall j :: i <= j < r.value - 1 ==> Cell(rows, j, 0) != key
    ensures r.None? ==> forall j :: i <= j < |rows| ==> Cell(rows, j, 0) != key
    decreases |rows| - i
  {
    if i >= |rows| then None
    else if Cell(rows, i, 0) == key then Some(i + 1)
    else FindFrom(rows, key, i + 1)
  }

  /**
   * The row `find_user_row` returns: never the header (row 1), the first data
   * row whose column A reads `key`, or `None` when no data row does.
   */
  function FindRow(rows: Rows, key: string): (r: Option<nat>)
    ensures r.Some? ==> 2 <= r.value <= |rows| && Cell(rows, r.value - 1, 0) == key
    ensures r.Some? ==> forall j :: 1 <= j < r.value - 1 ==> Cell(rows, j, 0) != key
    ensures r.None? ==> forall j :: 1 <= j < |rows| ==> Cell(rows, j, 0) != key
  {
    FindFrom(rows, key, 1)
  }

  /** The number of data rows at or below 0-based row `i` whose column A reads `key`. */
  function CountFrom(rows: Rows, key: string, i: nat): nat
    decreases |rows| - i
  {
    if i >= |rows| then 0
    else (if Cell(rows, i, 0) == key then 1 else 0) + CountFrom(rows, key, i + 1)
  }

  /** How many data rows (below the header) belong to `key`. */
  function Occurrences(rows: Rows, key: string): nat {
    CountFrom(rows, key, 1)
  }

  /** Every id has at most one data row. */
  ghost predicate UniqueKeys(rows: Rows) {
    forall key :: Occurrences(rows, key) <= 1
  }

  /** A row extended with empty cells up to `n` cells. */
  function Pad(row: seq<string>, n: nat): (r: seq<string>)
    ensures |r| == if |row| < n then n else |row|
    ensures forall j :: 0 <= j < |r| ==> r[j] == if j < |row| then row[j] else ""
  {
    if |row| < n then row + seq(n - |row|, _ => "") else row
  }

  /** `update_cell`: the one cell at 0-based (`r`, `c`) now reads `v`; every other cell is as it was. */
  function SetCell(rows: Rows, r: nat, c: nat, v: string): (res: Rows)
    requires r < |rows|
    ensures |res| == |rows|
    ensures forall i: nat, j: nat :: Cell(res, i, j) == if i == r && j == c then v else Cell(rows, i, j)
  {
    rows[r := Pad(rows[r], c + 1)[c := v]]
  }

  /**
   * `update("A{r}:J{r}", [values])` for the 0-based row `r`: the first
   * `|values|` cells of the row now read `values`; every other cell is as it was.
   */
  function WriteRange(rows: Rows, r: nat, values: seq<string>): (res: Rows)
    requires r < |rows|
    ensures |res| == |rows|
    ensures forall i: nat, j: nat :: Cell(res, i, j) == if i == r && j < |values| then values[j] else Cell(rows, i, j)
  {
    rows[r := values + (if |values| < |rows[r]| then rows[r][|values|..] else [])]
  }

  /** The write at the end of a registration: overwrite the user's row if there is one, else append. */
  function Upserted(rows: Rows, key: string, values: seq<string>): Rows {
    match FindRow(rows, key)
    case None => rows + [values]
    case Some(r) => WriteRange(rows, r - 1, values)
  }

  // ---------------------------------------------------------------------------
  // Lookups and counts

  /** A key is found exactly when some data row holds it. */
  lemma {:induction false} FoundIffCounted(rows: Rows, key: string, i: nat)
    ensures FindFrom(rows, key, i).Some? <==> CountFrom(rows, key, i) > 0
    decreases |rows| - i
  {
    if i < |rows| {
      FoundIffCounted(rows, key, i + 1);
    }
  }

  /** Lookups and counts read column A only. */
  lemma {:induction false} SameColumnA(a: Rows, b: Rows, key: string, i: nat)
    requires |a| == |b|
    requires forall j: nat :: Cell(a, j, 0) == Cell(b, j, 0)
    ensures FindFrom(a, key, i) == FindFrom(b, key, i)
    ensures CountFrom(a, key, i) == CountFrom(b, key, i)
    decreases |a| - i
  {
    if i < |a| {
      SameColumnA(a, b, key, i + 1);
    }
  }

  /** An appended row counts once for its own key and not for any other. */
  lemma {:induction false} CountAppend(rows: Rows, values: seq<string>, key: string, i: nat)
    requires i <= |rows|
    ensures CountFrom(rows + [values], key, i)
         == CountFrom(rows, key, i) + (if Cell([values], 0, 0) == key then 1 else 0)
    decreases |rows| - i
  {
    var ext := rows + [values];
    assert Cell(ext, |rows|, 0) == Cell([values], 0, 0);
    if i < |rows| {
      assert Cell(ext, i, 0) == Cell(rows, i, 0);
      CountAppend(rows, values, key, i + 1);
    } else {
      assert CountFrom(ext, key, i + 1) == 0;
    }
  }

  /** An appended row is found when no earlier data row holds its key. */
  lemma {:induction false} FindAppend(rows: Rows, values: seq<string>, key: string, i: nat)
    requires i <= |rows|
    requires FindFrom(rows, key, i) == None
    requires Cell([values], 0, 0) == key
    ensures FindFrom(rows + [values], key, i) == Some(|rows| + 1)
    decreases |rows| - i
  {
    var ext := rows + [values];
    if i < |rows| {
      assert Cell(ext, i, 0) == Cell(rows, i, 0);
      FindAppend(rows, values, key, i + 1);
    } else {
      assert Cell(ext, |rows|, 0) == Cell([values], 0, 0);
    }
  }

  /** A cell write outside column A changes no lookup and no count. */
  lemma SetCellKeepsKeys(rows: Rows, r: nat, c: nat, v: string, key: string)
    requires r < |rows| && c != 0
    ensures FindRow(SetCell(rows, r, c, v), key) == FindRow(rows, key)
    ensures Occurrences(SetCell(rows, r, c, v), key) == Occurrences(rows, key)
  {
    SameColumnA(SetCell(rows, r, c, v), rows, key, 1);
  }

  // ---------------------------------------------------------------------------
  // The upsert

  /**
   * After the upsert the user's row is found: where it was, or as the new last
   * row; it reads `values`; and the sheet grew by one row exactly when the user
   * had none.
   */
  lemma UpsertFindsRow(rows: Rows, key: string, values: seq<string>)
    requires |rows| >= 1 && |values| >= 1 && values[0] == key
    ensures var res := Upserted(rows, key, values);
      var row := match FindRow(rows, key) case None => |rows| + 1 case Some(r) => r;
      && FindRow(res, key) == Some(row)
      && (forall j: nat :: j < |values| ==> Cell(res, row - 1, j) == values[j])
      && |res| == |rows| + (if FindRow(rows, key).None? then 1 else 0)
  {
    var res := Upserted(rows, key, values);
    match FindRow(rows, key)
    case None =>
      FindAppend(rows, values, key, 1);
      forall j: nat | j < |values| ensures Cell(res, |rows|, j) == values[j] {
        assert res[|rows|] == values;
      }
    case Some(r) =>
      assert Cell(res, r - 1, 0) == key;
      forall j: nat | 1 <= j < r - 1 ensures Cell(res, j, 0) != key {
        assert Cell(res, j, 0) == Cell(rows, j, 0);
      }
      assert FindFrom(res, key, 1) == Some(r) by {
        FindPrefix(res, key, 1, r);
      }
  }

  /** The first match is the first row in a range whose key cell matches. */
  lemma {:induction false} FindPrefix(rows: Rows, key: string, i: nat, r: nat)
    requires i < r <= |rows| && Cell(rows, r - 1, 0) == key
    requires forall j :: i <= j < r - 1 ==> Cell(rows, j, 0) != key
    ensures FindFrom(rows, key, i) == Some(r)
    decreases r - i
  {
    if i < r - 1 {
      FindPrefix(rows, key, i + 1, r);
    }
  }

  /**
   * Registering never duplicates a user: the user's data rows number one
   * after the upsert if there were none, and as many as before otherwise; no
   * other id's rows change in number.
   */
  lemma UpsertCounts(rows: Rows, key: string, values: seq<string>, other: string)
    requires |rows| >= 1 && |values| >= 1 && values[0] == key
    ensures var n := Occurrences(rows, key);
      Occurrences(Upserted(rows, key, values), key) == (if n == 0 then 1 else n)
    ensures other != key ==> Occurrences(Upserted(rows, key, values), other) == Occurrences(rows, other)
  {
    var res := Upserted(rows, key, values);
    FoundIffCounted(rows, key, 1);
    match FindRow(rows, key)
    case None =>
      assert Cell([values], 0, 0) == key;
      CountAppend(rows, values, key, 1);
      CountAppend(rows, values, other, 1);
    case Some(r) =>
      forall j: nat ensures Cell(res, j, 0) == Cell(rows, j, 0) {
      }
      SameColumnA(res, rows, key, 1);
      SameColumnA(res, rows, other, 1);
  }

  /** The upsert keeps every id to at most one data row. */
  lemma UpsertKeepsKeysUnique(rows: Rows, key: string, values: seq<string>)
    requires |rows| >= 1 && |values| >= 1 && values[0] == key
    requires UniqueKeys(rows)
    ensures UniqueKeys(Upserted(rows, key, values))
  {
    forall k ensures Occurrences(Upserted(rows, key, values), k) <= 1 {
      UpsertCounts(rows, key, values, k);
    }
  }

  /**
   * Registering again replaces the first registration's row in place: two
   * upserts of same-width rows for one user leave the sheet as the second
   * alone would.
   */
  lemma ReRegisterReplaces(rows: Rows, key: string, first: seq<string>, second: seq<string>)
    requires |rows| >= 1 && |first| == |second| >= 1 && first[0] == key && second[0] == key
    ensures Upserted(Upserted(rows, key, first), key, second) == Upserted(rows, key, second)
  {
    var once := Upserted(rows, key, first);
    UpsertFindsRow(rows, key, first);
    match FindRow(rows, key)
    case None =>
      assert FindRow(once, key) == Some(|rows| + 1);
      assert once[|rows|] == first;
      assert |once[|rows|]| == |second|;
      assert second + [] == second;
      assert WriteRange(once, |rows|, second) == once[|rows| := second];
      assert once[|rows| := second] == rows + [second];
    case Some(r) =>
      assert FindRow(once, key) == Some(r);
      var row := rows[r - 1];
      assert once[r - 1] == first + (if |first| < |row| then row[|first|..] else []);
      assert Upserted(once, key, second)[r - 1] == Upserted(rows, key, second)[r - 1];
  }

  // ---------------------------------------------------------------------------
  // The sheet object

  class Sheet {
    var rows: Rows

    constructor (rows: Rows)
      ensures this.rows == rows
    {
      this.rows := rows;
    }

    /** `find_user_row`: scan column A below the header for the id's text. */
    method FindUserRow(userId: int) returns (row: Option<nat>)
      ensures row == FindRow(rows, DecimalString(userId))
    {
      var col := Column(rows, 0);
      var key := DecimalString(userId);
      var idx := 1;
      while idx < |col|
        invariant 1 <= idx && (idx <= |col| || |col| == 0)
        invariant FindFrom(rows, key, idx) == FindRow(rows, key)
      {
        if col[idx] == key {
          return Some(idx + 1);
        }
        idx := idx + 1;
      }
      return None;
    }

    /** `update_cell(row, col, value)`, 1-based. */
    method UpdateCell(row: nat, col: nat, value: string)
      requires 1 <= row <= |rows| && 1 <= col
      modifies this
      ensures rows == SetCell(old(rows), row - 1, col - 1, value)
    {
      rows := SetCell(rows, row - 1, col - 1, value);
    }

    /** `append_row(values)`: a new last row. */
    method AppendRow(values: seq<string>)
      modifies this
      ensures rows == old(rows) + [values]
    {
      rows := rows + [values];
    }

    /** `update("A{row}:J{row}", [values])`, 1-based. */
    method UpdateRowRange(row: nat, values: seq<string>)
      requires 1 <= row <= |rows| && |values| == RowWidth
      modifies this
      ensures rows == WriteRange(old(rows), row - 1, values)
    {
      rows := WriteRange(rows, row - 1, values);
    }

    /**
     * `update_confirmed`: write `value` into column J of the user's row and
     * report true; report false and write nothing when the user has no row.
     */
    method UpdateConfirmed(userId: int, value: string) returns (ok: bool)
      modifies this
      ensures var found := FindRow(old(rows), DecimalString(userId));
        && ok == found.Some?
        && rows == if ok then SetCell(old(rows), found.value - 1, ConfirmedColumn - 1, value) else old(rows)
    {
      var row := FindUserRow(userId);
      if row == None {
        return false;
      }
      UpdateCell(row.value, ConfirmedColumn, value);
      return true;
    }

    /** The write in `finish`: overwrite columns A to J of the user's row, or append the row. */
    method Upsert(userId: int, values: seq<string>)
      requires |values| == RowWidth
      modifies this
      ensures rows == Upserted(old(rows), DecimalString(userId), values)
    {
      var row := FindUserRow(userId);
      if row == None {
        AppendRow(values);
      } else {
        UpdateRowRange(row.value, values);
      }
    }
  }
}
