/**
 * The table component every page uses: how a cell's value is found by a
 * dotted path, how it is shown (status badge, date, value or "-"), which
 * buttons a row gets, and what an empty table shows.
 */
module DataTable {
  import opened Wrappers
  import opened JsStrings
  import opened JsValues

  const OBJECT_CHILD_ERROR: string := "Objects are not valid as a React child"

  /** One entry of `tableHeader`: the column title and the path of the value it shows. */
  datatype Column = Column(title: string, key: string)

  /** A row button; its click handler is the page's, not the table's. */
  datatype ButtonSpec = ButtonSpec(text: string)

  /**
   * What a cell shows: a status badge (Active or Inactive), a date cell
   * holding the ISO string that `formatDate` renders, or a plain value.
   */
  datatype Cell = StatusBadge(active: bool) | DateCell(iso: string) | Plain(shown: Value)

  /** A rendered body row: its cells and, when the Action column is there, its buttons. */
  datatype Row = DataRow(cells: seq<Cell>, actions: Option<seq<ButtonSpec>>) | EmptyRow(colSpan: nat)

  // ---------------------------------------------------------------------------
  // getValue
  // ---------------------------------------------------------------------------

  /** `keys.reduce((acc, key) => acc?.[key], v)`. */
  function Follow(v: Value, keys: seq<string>): Value
    decreases |keys|
  {
    if |keys| == 0 then v else Follow(OptGet(v, keys[0]), keys[1..])
  }

  /** `getValue(obj, path)`: follow the `.`-separated keys of `path` from `obj`. */
  function GetValue(obj: Value, path: string): Value
  {
    Follow(obj, Split(path, '.'))
  }

  lemma {:induction false} FollowConcat(v: Value, a: seq<string>, b: seq<string>)
    ensures Follow(v, a + b) == Follow(Follow(v, a), b)
    decreases |a|
  {
    if |a| == 0 {
      assert a + b == b;
    } else {
      assert (a + b)[1..] == a[1..] + b;
      FollowConcat(OptGet(v, a[0]), a[1..], b);
    }
  }

  /** Once a null or undefined value is reached, every further key gives undefined. */
  lemma {:induction false} FollowNullish(v: Value, keys: seq<string>)
    requires Nullish(v) && |keys| > 0
    ensures Follow(v, keys) == Undefined
    decreases |keys|
  {
    if |keys| > 1 {
      FollowNullish(Undefined, keys[1..]);
    }
  }

  /** A path without a dot is one optional property read. */
  lemma GetValueOneKey(obj: Value, key: string)
    requires '.' !in key
    ensures GetValue(obj, key) == OptGet(obj, key)
  {
    SplitNoSeparator(key, '.');
    assert Follow(obj, [key]) == Follow(OptGet(obj, key), [key][1..]);
    assert [key][1..] == [];
  }

  /** `head.rest` reads `head` first and then follows `rest` from what it found. */
  lemma GetValueSteps(obj: Value, head: string, rest: string)
    requires '.' !in head
    ensures GetValue(obj, head + "." + rest) == GetValue(OptGet(obj, head), rest)
  {
    SplitConcat(head, rest, '.');
    assert head + "." + rest == head + ['.'] + rest;
    FollowConcat(obj, [head], Split(rest, '.'));
  }

  /** If the first step finds null or undefined, the whole path gives undefined. */
  lemma GetValueStopsAtNullish(obj: Value, head: string, rest: string)
    requires '.' !in head && Nullish(OptGet(obj, head))
    ensures GetValue(obj, head + "." + rest) == Undefined
  {
    GetValueSteps(obj, head, rest);
    FollowNullish(OptGet(obj, head), Split(rest, '.'));
  }

  // ---------------------------------------------------------------------------
  // Cells
  // ---------------------------------------------------------------------------

  /** `/^\d{4}-\d{2}-\d{2}T/.test(s)`. */
  predicate IsIsoDateStart(s: string)
  {
    && |s| >= 11
    && IsDecimalDigit(s[0]) && IsDecimalDigit(s[1]) && IsDecimalDigit(s[2]) && IsDecimalDigit(s[3])
    && s[4] == '-'
    && IsDecimalDigit(s[5]) && IsDecimalDigit(s[6])
    && s[7] == '-'
    && IsDecimalDigit(s[8]) && IsDecimalDigit(s[9])
    && s[10] == 'T'
  }

  /** The test is anchored at the start only: it reads the first eleven characters and nothing after. */
  lemma IsoDateStartIsPrefixTest(s: string, t: string)
    ensures IsIsoDateStart(s) <==> |s| >= 11 && IsIsoDateStart(s[..11])
    ensures IsIsoDateStart(s) ==> IsIsoDateStart(s + t)
  {
    if |s| >= 11 {
      assert forall i :: 0 <= i < 11 ==> s[..11][i] == s[i];
    }
    assert forall i :: 0 <= i < |s| ==> (s + t)[i] == s[i];
  }

  /**
   * The cell for column `col` and value `value`: the status column is a badge,
   * an ISO-dated string is a date, anything else is `value ?? "-"`.
   */
  function RenderCell(col: Column, value: Value): (c: Cell)
    ensures col.key == "status" ==> c.StatusBadge?
    ensures c.DateCell? ==> value.Str? && c.iso == value.s
  {
    if col.key == "status" then StatusBadge(StrictEquals(value, Str("active")) || StrictEquals(value, Bool(true)))
    else if value.Str? && IsIsoDateStart(value.s) then DateCell(value.s)
    else Plain(Coalesce(value, Str("-")))
  }

  /** A status cell is Active exactly for "active" and `true`, dates included. */
  lemma StatusCellRule(col: Column, value: Value)
    requires col.key == "status"
    ensures RenderCell(col, value) == StatusBadge(value == Str("active") || value == Bool(true))
  {
  }

  /** Outside the status column, a cell is a date exactly when its value is an ISO-dated string. */
  lemma DateCellRule(col: Column, value: Value)
    requires col.key != "status"
    ensures RenderCell(col, value).DateCell? <==> value.Str? && IsIsoDateStart(value.s)
  {
  }

  /**
   * Any other cell holds `value ?? "-"`: "-" only for null and undefined,
   * so 0 shows "0" and "" shows nothing, booleans show nothing at all, and
   * an object or a file cannot be shown.
   */
  lemma PlainCellRule(col: Column, value: Value)
    requires col.key != "status" && !(value.Str? && IsIsoDateStart(value.s))
    ensures RenderCell(col, value) == Plain(if Nullish(value) then Str("-") else value)
    ensures Nullish(value) ==> ShowsAs(RenderCell(col, value).shown, "-")
    ensures value == Num(0) ==> ShowsAs(RenderCell(col, value).shown, "0")
    ensures value == Str("") || value.Bool? ==> ShowsAs(RenderCell(col, value).shown, "")
    ensures value.Str? ==> ShowsAs(RenderCell(col, value).shown, value.s)
    ensures value.Obj? || value.File? ==> !IsChild(RenderCell(col, value).shown)
  {
    assert IntToString(0) == "0";
  }

  // ---------------------------------------------------------------------------
  // What React shows for a child value
  // ---------------------------------------------------------------------------

  /**
   * A value React can render as a child: anything but a plain object or a
   * file, which throw "Objects are not valid as a React child", and arrays
   * of such values.
   */
  predicate IsChild(v: Value)
  {
    match v
    case Obj(_) => false
    case File(_) => false
    case Arr(items) => forall i :: 0 <= i < |items| ==> IsChild(items[i])
    case _ => true
  }

  /** The parts, one after the other. */
  function Concat(parts: seq<string>): string
  {
    if |parts| == 0 then "" else parts[0] + Concat(parts[1..])
  }

  /** The text of two runs of children is the text of the first, then of the second. */
  lemma {:induction false} ConcatAppend(a: seq<string>, b: seq<string>)
    ensures Concat(a + b) == Concat(a) + Concat(b)
    decreases |a|
  {
    if |a| == 0 {
      assert a + b == b;
    } else {
      assert (a + b)[1..] == a[1..] + b;
      ConcatAppend(a[1..], b);
    }
  }

  /**
   * The text React renders for a child: nothing for null, undefined and
   * booleans, a number's decimal form, a string as it is, and an array's
   * elements one after the other.
   */
  function ChildText(v: Value): string
    requires IsChild(v)
  {
    match v
    case Undefined => ""
    case Null => ""
    case Bool(_) => ""
    case Num(n) => IntToString(n)
    case NaN => "NaN"
    case Str(s) => s
    case Arr(items) => Concat(seq(|items|, i requires 0 <= i < |items| => ChildText(items[i])))
  }

  /** `v` is a child that React renders as `text`. */
  predicate ShowsAs(v: Value, text: string)
  {
    IsChild(v) && ChildText(v) == text
  }

  /** A one-element array shows as its element. */
  lemma ArrayOfOneChild(v: Value)
    requires IsChild(v)
    ensures ShowsAs(Arr([v]), ChildText(v))
  {
    var one := [v];
    assert one[0] == v;
    assert seq(1, i requires 0 <= i < 1 => ChildText(one[i])) == [ChildText(v)];
    assert ChildText(Arr(one)) == Concat([ChildText(v)]);
    assert [ChildText(v)][1..] == [];
    assert Concat([ChildText(v)]) == ChildText(v) + Concat([]);
  }

  /** Booleans among an array's elements show nothing. */
  lemma BooleansAroundChild(v: Value)
    requires IsChild(v)
    ensures ShowsAs(Arr([Bool(true), v, Bool(false)]), ChildText(v))
  {
    var three := [Bool(true), v, Bool(false)];
    assert forall i :: 0 <= i < 3 ==> IsChild(three[i]);
    var parts := seq(3, i requires 0 <= i < 3 => ChildText(three[i]));
    assert parts == ["", ChildText(v), ""];
    assert ChildText(Arr(three)) == Concat(parts);
    assert parts[2..][1..] == [];
    assert Concat(parts[2..]) == "";
    assert Concat(parts[1..]) == ChildText(v) + Concat(parts[2..]);
  }

  // ---------------------------------------------------------------------------
  // Buttons, header and rows
  // ---------------------------------------------------------------------------

  /** `dynamicButtons ? dynamicButtons(row) : buttons`. */
  function RowButtons(buttons: seq<ButtonSpec>, dynamic: Option<Value -> seq<ButtonSpec>>, row: Value): seq<ButtonSpec>
  {
    if dynamic.Some? then dynamic.value(row) else buttons
  }

  /** The header's Action column: `buttons.length > 0 || dynamicButtons`. */
  predicate ShowsActionColumn(buttons: seq<ButtonSpec>, dynamic: Option<Value -> seq<ButtonSpec>>)
  {
    |buttons| > 0 || dynamic.Some?
  }

  /** A row's action cell: `rowButtons.length > 0 || dynamicButtons`. */
  predicate ShowsActionCell(buttons: seq<ButtonSpec>, dynamic: Option<Value -> seq<ButtonSpec>>, row: Value)
  {
    |RowButtons(buttons, dynamic, row)| > 0 || dynamic.Some?
  }

  /** Every row has an action cell exactly when the header has the Action column. */
  lemma ActionCellMatchesHeader(buttons: seq<ButtonSpec>, dynamic: Option<Value -> seq<ButtonSpec>>, row: Value)
    ensures ShowsActionCell(buttons, dynamic, row) <==> ShowsActionColumn(buttons, dynamic)
    ensures dynamic.None? ==> RowButtons(buttons, dynamic, row) == buttons
  {
  }

  /** The header titles, with "Action" last when the Action column is shown. */
  function HeaderCells(header: seq<Column>, buttons: seq<ButtonSpec>, dynamic: Option<Value -> seq<ButtonSpec>>): (hs: seq<string>)
    ensures |hs| == |header| + (if ShowsActionColumn(buttons, dynamic) then 1 else 0)
    ensures forall j :: 0 <= j < |header| ==> hs[j] == header[j].title
  {
    seq(|header|, j requires 0 <= j < |header| => header[j].title)
      + (if ShowsActionColumn(buttons, dynamic) then ["Action"] else [])
  }

  /** One data row; `row._id` (the React key) throws on a null or undefined row. */
  function RenderRow(header: seq<Column>, row: Value, buttons: seq<ButtonSpec>, dynamic: Option<Value -> seq<ButtonSpec>>): (r: Result<Row>)
    ensures Nullish(row) <==> r.Failure?
    ensures r.Success? ==> r.value.DataRow? && |r.value.cells| == |header|
    ensures r.Success? ==> forall j :: 0 <= j < |header| ==> r.value.cells[j] == RenderCell(header[j], GetValue(row, header[j].key))
    ensures r.Success? ==> (r.value.actions.Some? <==> ShowsActionColumn(buttons, dynamic))
    ensures r.Success? && r.value.actions.Some? ==> r.value.actions.value == RowButtons(buttons, dynamic, row)
  {
    if Nullish(row) then Failure(TYPE_ERROR)
    else
      var rowButtons := RowButtons(buttons, dynamic, row);
      var cells := seq(|header|, j requires 0 <= j < |header| => RenderCell(header[j], GetValue(row, header[j].key)));
      Success(DataRow(cells, if |rowButtons| > 0 || dynamic.Some? then Some(rowButtons) else None))
  }

  /**
   * `tableData.map(...)` over the rows, creating the row elements; the
   * first null row throws.
   */
  function RenderRows(header: seq<Column>, rows: seq<Value>, buttons: seq<ButtonSpec>, dynamic: Option<Value -> seq<ButtonSpec>>): (r: Result<seq<Row>>)
    ensures r.Success? <==> forall i :: 0 <= i < |rows| ==> !Nullish(rows[i])
    ensures r.Success? ==> |r.value| == |rows|
    ensures r.Success? ==> forall i :: 0 <= i < |rows| ==> Success(r.value[i]) == RenderRow(header, rows[i], buttons, dynamic)
  {
    if |rows| == 0 then Success([])
    else
      match RenderRow(header, rows[0], buttons, dynamic)
      case Failure(m) => Failure(m)
      case Success(first) =>
        match RenderRows(header, rows[1..], buttons, dynamic)
        case Failure(m) =>
          assert exists i :: 0 <= i < |rows| && Nullish(rows[i]) by {
            var j :| 0 <= j < |rows| - 1 && Nullish(rows[1..][j]);
            assert rows[j + 1] == rows[1..][j];
          }
          Failure(m)
        case Success(rest) =>
          assert forall i :: 0 < i < |rows| ==> rows[i] == rows[1..][i - 1];
          Success([first] + rest)
  }

  /** Every plain cell of the rows holds a value React can render. */
  predicate Mountable(rows: seq<Row>)
  {
    forall i, j :: 0 <= i < |rows| && rows[i].DataRow? && 0 <= j < |rows[i].cells| && rows[i].cells[j].Plain? ==>
      IsChild(rows[i].cells[j].shown)
  }

  /**
   * The table body.  `tableData.length` throws on null or undefined; a
   * length for which `length > 0` fails (after JavaScript's conversion to a
   * number) shows the one "No data available" row across all columns;
   * otherwise `tableData.map` runs, which throws for anything but an array
   * and at the first null row; finally React throws when a cell holds an
   * object or a file.
   */
  function RenderBody(header: seq<Column>, tableData: Value, buttons: seq<ButtonSpec>, dynamic: Option<Value -> seq<ButtonSpec>>): (r: Result<seq<Row>>)
    ensures Nullish(tableData) ==> r == Failure(TYPE_ERROR)
    ensures !Nullish(tableData) && !IsPositive(LooseNumber(Get(tableData, "length"))) ==> r == Success([EmptyRow(|header| + 1)])
    ensures !Nullish(tableData) && IsPositive(LooseNumber(Get(tableData, "length"))) && !tableData.Arr? ==> r == Failure(TYPE_ERROR)
    ensures r.Success? && tableData.Arr? && |tableData.items| > 0 ==> Mountable(r.value)
  {
    if Nullish(tableData) then Failure(TYPE_ERROR)
    else if !IsPositive(LooseNumber(Get(tableData, "length"))) then Success([EmptyRow(|header| + 1)])
    else if !tableData.Arr? then Failure(TYPE_ERROR)
    else
      match RenderRows(header, tableData.items, buttons, dynamic)
      case Failure(m) => Failure(m)
      case Success(rows) => if Mountable(rows) then Success(rows) else Failure(OBJECT_CHILD_ERROR)
  }

  /** An empty list shows exactly one row, spanning every column plus one. */
  lemma EmptyTableRow(header: seq<Column>, buttons: seq<ButtonSpec>, dynamic: Option<Value -> seq<ButtonSpec>>)
    ensures RenderBody(header, Arr([]), buttons, dynamic) == Success([EmptyRow(|header| + 1)])
  {
  }

  /**
   * A non-empty list without null rows makes one row per item, each with
   * one cell per column and an action cell exactly when the header has one;
   * the body shows those rows unless one of their cells cannot be shown.
   */
  lemma RowsAlignWithHeader(header: seq<Column>, items: seq<Value>, buttons: seq<ButtonSpec>, dynamic: Option<Value -> seq<ButtonSpec>>)
    requires |items| > 0 && forall i :: 0 <= i < |items| ==> !Nullish(items[i])
    ensures var rs := RenderRows(header, items, buttons, dynamic);
            && rs.Success? && |rs.value| == |items|
            && (forall i :: 0 <= i < |items| ==>
                 && rs.value[i].DataRow?
                 && |rs.value[i].cells| + (if rs.value[i].actions.Some? then 1 else 0) == |HeaderCells(header, buttons, dynamic)|)
            && RenderBody(header, Arr(items), buttons, dynamic)
                 == (if Mountable(rs.value) then Success(rs.value) else Failure(OBJECT_CHILD_ERROR))
  {
    var r := RenderRows(header, items, buttons, dynamic);
    forall i | 0 <= i < |items|
      ensures r.value[i].DataRow?
      ensures |r.value[i].cells| + (if r.value[i].actions.Some? then 1 else 0) == |HeaderCells(header, buttons, dynamic)|
    {
      assert Success(r.value[i]) == RenderRow(header, items[i], buttons, dynamic);
    }
  }

  /** A cell outside the status column whose value is an object breaks the whole body. */
  lemma ObjectCellBreaksBody(header: seq<Column>, items: seq<Value>, buttons: seq<ButtonSpec>, dynamic: Option<Value -> seq<ButtonSpec>>, i: nat, j: nat)
    requires forall k :: 0 <= k < |items| ==> !Nullish(items[k])
    requires i < |items| && j < |header| && header[j].key != "status"
    requires GetValue(items[i], header[j].key).Obj? || GetValue(items[i], header[j].key).File?
    ensures RenderBody(header, Arr(items), buttons, dynamic) == Failure(OBJECT_CHILD_ERROR)
  {
    var rs := RenderRows(header, items, buttons, dynamic);
    assert Success(rs.value[i]) == RenderRow(header, items[i], buttons, dynamic);
    assert rs.value[i].cells[j] == RenderCell(header[j], GetValue(items[i], header[j].key));
    assert !Mountable(rs.value);
  }

  /**
   * An object whose `length` is the string "5" passes `length > 0` and
   * reaches `tableData.map`, which it does not have.
   */
  lemma StringLengthReachesMap(header: seq<Column>, buttons: seq<ButtonSpec>, dynamic: Option<Value -> seq<ButtonSpec>>)
    ensures RenderBody(header, Obj([Prop("length", Str("5"))]), buttons, dynamic) == Failure(TYPE_ERROR)
  {
    NumberOfPlainDigits("5");
    assert ValueIn("5", 10) == 5;
  }
}
