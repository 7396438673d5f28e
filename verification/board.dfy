/** The compact periodic table of the periodic-table mode: periods 1–4 and the eight
    main-group columns, holding elements 1–20. A cell is addressed by (period, column);
    the lookup table is keyed by the string `String(period) + "-" + String(col)`. */
module Board {
  import opened Util
  import Decimal

  /** The groups shown, left to right; column `k` (1-based) shows group `GroupColumns[k - 1]`. */
  const GroupColumns: seq<int> := [1, 2, 13, 14, 15, 16, 17, 18]

  datatype Position = Position(period: int, group: int)

  /** Period and group of elements 1–20; no entry for any other number. */
  function PosOf(z: int): Option<Position> {
    match z
    case 1 => Some(Position(1, 1))
    case 2 => Some(Position(1, 18))
    case 3 => Some(Position(2, 1))
    case 4 => Some(Position(2, 2))
    case 5 => Some(Position(2, 13))
    case 6 => Some(Position(2, 14))
    case 7 => Some(Position(2, 15))
    case 8 => Some(Position(2, 16))
    case 9 => Some(Position(2, 17))
    case 10 => Some(Position(2, 18))
    case 11 => Some(Position(3, 1))
    case 12 => Some(Position(3, 2))
    case 13 => Some(Position(3, 13))
    case 14 => Some(Position(3, 14))
    case 15 => Some(Position(3, 15))
    case 16 => Some(Position(3, 16))
    case 17 => Some(Position(3, 17))
    case 18 => Some(Position(3, 18))
    case 19 => Some(Position(4, 1))
    case 20 => Some(Position(4, 2))
    case _ => None
  }

  /** `Array.prototype.indexOf` searching from index `from`: the first index at or after
      `from` holding `x`, or -1. */
  function IndexOf(s: seq<int>, x: int, from: nat): (r: int)
    requires from <= |s|
    ensures r == -1 || from <= r < |s|
    ensures r >= 0 ==> s[r] == x && forall k :: from <= k < r ==> s[k] != x
    ensures r < 0 ==> forall k :: from <= k < |s| ==> s[k] != x
    decreases |s| - from
  {
    if from == |s| then -1 else if s[from] == x then from else IndexOf(s, x, from + 1)
  }

  /** The column (1–8) that shows `group`, or none for a group that is not drawn. */
  function ColForGroup(group: int): (col: Option<int>)
    ensures col.Some? <==> group in GroupColumns
    ensures col.Some? ==> 1 <= col.value <= |GroupColumns| && GroupColumns[col.value - 1] == group
  {
    var idx := IndexOf(GroupColumns, group, 0);
    if idx >= 0 then Some(idx + 1) else None
  }

  /** The key of a cell in the lookup table. */
  function CellKey(period: int, col: int): string {
    Decimal.IntToString(period) + "-" + Decimal.IntToString(col)
  }

  /** Index of the separator: the first '-' after the first character. */
  function SeparatorIndex(s: string, from: nat): (r: nat)
    requires from <= |s|
    ensures from <= r <= |s|
    decreases |s| - from
  {
    if from == |s| || s[from] == '-' then from else SeparatorIndex(s, from + 1)
  }

  /** Reads a key back into (period, column). */
  function ParseCellKey(key: string): (int, int) {
    if |key| == 0 then (0, 0)
    else
      var sep := SeparatorIndex(key, 1);
      if sep == |key| then (Decimal.ParseInt(key), 0)
      else (Decimal.ParseInt(key[..sep]), Decimal.ParseInt(key[sep + 1..]))
  }

  lemma {:induction false} SeparatorSkipsDigits(s: string, from: nat, stop: nat)
    requires from <= stop < |s| && s[stop] == '-'
    requires forall k :: from <= k < stop ==> Decimal.IsDigit(s[k])
    ensures SeparatorIndex(s, from) == stop
    decreases stop - from
  {
    if from < stop {
      SeparatorSkipsDigits(s, from + 1, stop);
    }
  }

  /** The key loses no information: distinct cells never share an entry. */
  lemma CellKeyRoundTrip(period: int, col: int)
    ensures ParseCellKey(CellKey(period, col)) == (period, col)
  {
    var p := Decimal.IntToString(period);
    var c := Decimal.IntToString(col);
    var key := CellKey(period, col);
    SeparatorSkipsDigits(key, 1, |p|);
    assert key[..|p|] == p;
    assert key[|p| + 1..] == c;
    Decimal.ParseIntToString(period);
    Decimal.ParseIntToString(col);
  }

  /** The cell of element `z`, as the table-building loop computes it. */
  function CellOf(z: int): Option<(int, int)> {
    match PosOf(z)
    case None => None
    case Some(pos) =>
      match ColForGroup(pos.group)
      case None => None
      case Some(col) => Some((pos.period, col))
  }

  /** The key the loop writes for element `z`, if it writes one. */
  function KeyOf(z: int): Option<string> {
    match CellOf(z)
    case None => None
    case Some(cell) => Some(CellKey(cell.0, cell.1))
  }

  /** The map a loop over `z = 1 .. n` builds when it sets `keyOf(z)` to `z` wherever
      `keyOf(z)` is present; a later `z` overwrites an earlier one on the same key. */
  function MapUpTo(keyOf: int -> Option<string>, n: nat): map<string, int>
    decreases n
  {
    if n == 0 then map[]
    else
      var m := MapUpTo(keyOf, n - 1);
      match keyOf(n)
      case None => m
      case Some(key) => m[key := n]
  }

  /** When no two numbers share a key, the built map sends each key back to its number
      and holds nothing else. */
  lemma {:induction false} MapUpToContents(keyOf: int -> Option<string>, n: nat)
    requires forall a, b :: 1 <= a < b <= n && keyOf(a).Some? && keyOf(b).Some? ==> keyOf(a) != keyOf(b)
    ensures forall z :: 1 <= z <= n && keyOf(z).Some? ==>
              keyOf(z).value in MapUpTo(keyOf, n) && MapUpTo(keyOf, n)[keyOf(z).value] == z
    ensures forall key :: key in MapUpTo(keyOf, n) ==>
              1 <= MapUpTo(keyOf, n)[key] <= n && keyOf(MapUpTo(keyOf, n)[key]) == Some(key)
    decreases n
  {
    if n > 0 {
      MapUpToContents(keyOf, n - 1);
    }
  }

  /** The lookup table after the loop has handled `z = 1 .. n`. */
  function CellMapUpTo(n: nat): map<string, int> {
    MapUpTo(KeyOf, n)
  }

  /** The finished lookup table. */
  function CellByPos(): map<string, int> {
    CellMapUpTo(20)
  }

  /** One step of the loop: number `z` adds its key, if it has one, to the table so far. */
  lemma CellMapStep(z: nat)
    requires 1 <= z
    ensures KeyOf(z).None? ==> CellMapUpTo(z) == CellMapUpTo(z - 1)
    ensures KeyOf(z).Some? ==> CellMapUpTo(z) == CellMapUpTo(z - 1)[KeyOf(z).value := z]
  {
  }

  /** Builds the lookup table with the loop of the source, skipping numbers without a
      position or whose group is not drawn. */
  method BuildCellByPos() returns (m: map<string, int>)
    ensures m == CellByPos()
  {
    m := map[];
    var z := 1;
    while z <= 20
      invariant 1 <= z <= 21
      invariant m == CellMapUpTo(z - 1)
    {
      CellMapStep(z);
      var pos := PosOf(z);
      if pos.None? {
        assert KeyOf(z).None?;
        z := z + 1;
        continue;
      }
      var col := ColForGroup(pos.value.group);
      if col.None? {
        assert KeyOf(z).None?;
        z := z + 1;
        continue;
      }
      assert KeyOf(z) == Some(CellKey(pos.value.period, col.value));
      m := m[CellKey(pos.value.period, col.value) := z];
      z := z + 1;
    }
  }

  /** The element drawn at (period, col), if any. */
  function ZAt(period: int, col: int): Option<int> {
    var key := CellKey(period, col);
    if key in CellByPos() then Some(CellByPos()[key]) else None
  }

  /** Whether (period, col) is a drawn cell. */
  function HasCell(period: int, col: int): bool {
    ZAt(period, col).Some?
  }

  /** The shape of the compact table, stated independently of the lookup: H and He at the
      ends of period 1, periods 2 and 3 full, K and Ca at the start of period 4. */
  predicate InShape(period: int, col: int) {
    (period == 1 && (col == 1 || col == 8))
    || ((period == 2 || period == 3) && 1 <= col <= 8)
    || (period == 4 && 1 <= col <= 2)
  }

  /** Reference numbering of the shape, row by row. */
  function ZOfCell(period: int, col: int): int {
    if period == 1 then (if col == 1 then 1 else 2)
    else if period == 2 then 2 + col
    else if period == 3 then 10 + col
    else 18 + col
  }

  /** The `k`-th drawn group (0-based) is shown in column `k + 1`: the groups are distinct,
      so the search finds no earlier match. */
  lemma ColumnOfIndex(k: nat)
    requires k < |GroupColumns|
    ensures ColForGroup(GroupColumns[k]) == Some(k + 1)
  {
    var r := IndexOf(GroupColumns, GroupColumns[k], 0);
    assert r >= 0;
    if r < k {
      assert GroupColumns[r] == GroupColumns[k];
    }
  }

  /** An element whose position is (period, k-th drawn group) sits in column `k + 1`. */
  lemma CellFromPosition(z: int, period: int, k: nat)
    requires k < |GroupColumns| && PosOf(z) == Some(Position(period, GroupColumns[k]))
    ensures CellOf(z) == Some((period, k + 1))
  {
    ColumnOfIndex(k);
  }

  /** Period 1: H and He at the two ends. */
  lemma CellOfPeriodOne(z: int)
    requires 1 <= z <= 2
    ensures CellOf(z) == Some((1, if z == 1 then 1 else 8))
  {
    CellFromPosition(z, 1, if z == 1 then 0 else 7);
  }

  /** Period 2: Li–Ne across all eight columns. */
  lemma CellOfPeriodTwo(z: int)
    requires 3 <= z <= 10
    ensures CellOf(z) == Some((2, z - 2))
  {
    CellFromPosition(z, 2, z - 3);
  }

  /** Period 3: Na–Ar across all eight columns. */
  lemma CellOfPeriodThree(z: int)
    requires 11 <= z <= 18
    ensures CellOf(z) == Some((3, z - 10))
  {
    CellFromPosition(z, 3, z - 11);
  }

  /** Period 4: K and Ca. */
  lemma CellOfPeriodFour(z: int)
    requires 19 <= z <= 20
    ensures CellOf(z) == Some((4, z - 18))
  {
    CellFromPosition(z, 4, z - 19);
  }

  /** Every element 1–20 gets a cell of the shape, numbered as the reference numbering says. */
  lemma CellOfInShape(z: int)
    requires 1 <= z <= 20
    ensures CellOf(z).Some? && InShape(CellOf(z).value.0, CellOf(z).value.1)
    ensures ZOfCell(CellOf(z).value.0, CellOf(z).value.1) == z
  {
    if z <= 2 {
      CellOfPeriodOne(z);
    } else if z <= 10 {
      CellOfPeriodTwo(z);
    } else if z <= 18 {
      CellOfPeriodThree(z);
    } else {
      CellOfPeriodFour(z);
    }
  }

  /** Every cell of the shape is the cell of its reference number. */
  lemma ShapeCellOf(period: int, col: int)
    requires InShape(period, col)
    ensures 1 <= ZOfCell(period, col) <= 20
    ensures CellOf(ZOfCell(period, col)) == Some((period, col))
  {
    var z := ZOfCell(period, col);
    CellOfInShape(z);
    if period == 1 {
      assert CellOf(z) == Some((period, col));
    } else if period == 4 {
      assert CellOf(z) == Some((period, col));
    } else {
      assert CellOf(z) == Some((period, col));
    }
  }

  /** Two elements 1–20 never share a key. */
  lemma KeysDistinct(a: int, b: int)
    requires 1 <= a <= 20 && 1 <= b <= 20 && a != b
    ensures KeyOf(a).Some? && KeyOf(b).Some? && KeyOf(a) != KeyOf(b)
  {
    CellOfInShape(a);
    CellOfInShape(b);
    var ca := CellOf(a).value;
    var cb := CellOf(b).value;
    CellKeyRoundTrip(ca.0, ca.1);
    CellKeyRoundTrip(cb.0, cb.1);
  }

  /** The finished table maps the key of each element 1–20 to that element, and holds
      nothing else. */
  lemma CellByPosContents()
    ensures forall z :: 1 <= z <= 20 ==> KeyOf(z).Some? && KeyOf(z).value in CellByPos() && CellByPos()[KeyOf(z).value] == z
    ensures forall key :: key in CellByPos() ==> 1 <= CellByPos()[key] <= 20 && KeyOf(CellByPos()[key]) == Some(key)
  {
    forall a, b | 1 <= a < b <= 20
      ensures KeyOf(a) != KeyOf(b)
    {
      KeysDistinct(a, b);
    }
    forall z | 1 <= z <= 20
      ensures KeyOf(z).Some?
    {
      CellOfInShape(z);
    }
    MapUpToContents(KeyOf, 20);
  }

  /** The lookup answers `z` at (period, col) exactly when that is `z`'s cell: every element
      1–20 is found at its own cell, and no cell answers for two elements. */
  lemma ZAtIff(period: int, col: int, z: int)
    ensures ZAt(period, col) == Some(z) <==> 1 <= z <= 20 && CellOf(z) == Some((period, col))
  {
    CellByPosContents();
    var key := CellKey(period, col);
    if ZAt(period, col) == Some(z) {
      assert key in CellByPos() && CellByPos()[key] == z;
      assert KeyOf(z) == Some(key);
      var cell := CellOf(z).value;
      assert CellKey(cell.0, cell.1) == key;
      CellKeyRoundTrip(cell.0, cell.1);
      CellKeyRoundTrip(period, col);
    }
    if 1 <= z <= 20 && CellOf(z) == Some((period, col)) {
      assert KeyOf(z) == Some(key);
    }
  }

  /** A cell is drawn exactly when it lies in the shape of the compact table. */
  lemma HasCellIff(period: int, col: int)
    ensures HasCell(period, col) <==> InShape(period, col)
  {
    if HasCell(period, col) {
      var z := ZAt(period, col).value;
      ZAtIff(period, col, z);
      CellOfInShape(z);
    }
    if InShape(period, col) {
      ShapeCellOf(period, col);
      ZAtIff(period, col, ZOfCell(period, col));
    }
  }

  /** The four cells checked at start-up: H, He, Li and Ca. */
  lemma SelfTestCells()
    ensures ZAt(1, 1) == Some(1)
    ensures ZAt(1, 8) == Some(2)
    ensures ZAt(2, 1) == Some(3)
    ensures ZAt(4, 2) == Some(20)
  {
    ShapeCellOf(1, 1);
    ZAtIff(1, 1, 1);
    ShapeCellOf(1, 8);
    ZAtIff(1, 8, 2);
    ShapeCellOf(2, 1);
    ZAtIff(2, 1, 3);
    ShapeCellOf(4, 2);
    ZAtIff(4, 2, 20);
  }
}
