/** A DataFrame as the two components see it: an index of timestamps (or of some
    other labels) and an ordered list of named columns, each holding one value per row. */
module Frames {
  import opened Wrappers
  import opened Series

  /** A timestamp of a DatetimeIndex together with the calendar fields pandas derives
      from it (`hour`, `dayofweek`, `day`, `month`, `quarter`). */
  datatype Stamp = Stamp(instant: int, hour: nat, dayOfWeek: nat, day: nat, month: nat, quarter: nat)

  /** A DatetimeIndex, or an index of any other kind (only its length matters). */
  datatype Index = DatetimeIndex(stamps: seq<Stamp>) | OtherIndex(size: nat)

  /** Whether `pd.api.types.is_numeric_dtype` holds of a column. */
  datatype DType = Numeric | NonNumeric

  datatype Column = Column(name: string, dtype: DType, values: Col)

  datatype Frame = Frame(index: Index, columns: seq<Column>)

  function IndexSize(i: Index): nat
  {
    match i
    case DatetimeIndex(stamps) => |stamps|
    case OtherIndex(size) => size
  }

  /** `df.shape[0]` */
  function Rows(f: Frame): nat
  {
    IndexSize(f.index)
  }

  /** `df.shape[1]` */
  function Width(f: Frame): nat
  {
    |f.columns|
  }

  function NamesOf(cols: seq<Column>): (ns: seq<string>)
    ensures |ns| == |cols|
    ensures forall j :: 0 <= j < |cols| ==> ns[j] == cols[j].name
  {
    if cols == [] then [] else [cols[0].name] + NamesOf(cols[1..])
  }

  /** `df.columns` */
  function Names(f: Frame): seq<string>
  {
    NamesOf(f.columns)
  }

  predicate Distinct<T(==)>(xs: seq<T>)
  {
    forall i, j :: 0 <= i < j < |xs| ==> xs[i] != xs[j]
  }

  /** What pandas guarantees of every DataFrame: each column has a value for every row
      of the index. Column labels are taken to be unique. */
  predicate WellFormed(f: Frame)
  {
    (forall c :: c in f.columns ==> |c.values| == Rows(f)) && Distinct(Names(f))
  }

  function Find(cols: seq<Column>, name: string): (r: Option<Column>)
    ensures r.Some? <==> name in NamesOf(cols)
    ensures r.Some? ==> r.value.name == name && r.value in cols
  {
    if cols == [] then None
    else if cols[0].name == name then Some(cols[0])
    else Find(cols[1..], name)
  }

  /** `df[name]`, or nothing when the frame has no such column. */
  function Lookup(f: Frame, name: string): Option<Column>
  {
    Find(f.columns, name)
  }

  function ValuesIn(cols: seq<Column>, name: string): Col
  {
    if cols == [] then [] else if cols[0].name == name then cols[0].values else ValuesIn(cols[1..], name)
  }

  /** The values of column `name`; only asked of columns that are present. */
  function Get(f: Frame, name: string): Col
  {
    ValuesIn(f.columns, name)
  }

  /** `Get` reads the column `Lookup` finds. */
  lemma {:induction false} ValuesInFound(cols: seq<Column>, name: string)
    ensures Find(cols, name).Some? ==> ValuesIn(cols, name) == Find(cols, name).value.values
  {
    if cols != [] && cols[0].name != name {
      ValuesInFound(cols[1..], name);
    }
  }

  function SetIn(cols: seq<Column>, c: Column): (r: seq<Column>)
    ensures NamesOf(r) == if c.name in NamesOf(cols) then NamesOf(cols) else NamesOf(cols) + [c.name]
  {
    if cols == [] then [c]
    else if cols[0].name == c.name then [c] + cols[1..]
    else [cols[0]] + SetIn(cols[1..], c)
  }

  /** `df[name] = values`: the new numeric column takes the place of the one called
      `name`, or is appended after the others when there is none. */
  function SetColumn(f: Frame, name: string, values: Col): (g: Frame)
    ensures g.index == f.index
    ensures Names(g) == if name in Names(f) then Names(f) else Names(f) + [name]
  {
    Frame(f.index, SetIn(f.columns, Column(name, Numeric, values)))
  }

  /** Setting a column removes no column. */
  lemma SetKeeps(f: Frame, name: string, values: Col, n: string)
    ensures n in Names(f) ==> n in Names(SetColumn(f, name, values))
  {
  }

  lemma {:induction false} FindSetIn(cols: seq<Column>, c: Column, n: string)
    ensures Find(SetIn(cols, c), n) == if n == c.name then Some(c) else Find(cols, n)
  {
    if cols != [] && cols[0].name != c.name {
      FindSetIn(cols[1..], c, n);
    }
  }

  /** After `df[name] = values`, `df[name]` is the new column and every other column is
      as it was. */
  lemma LookupSet(f: Frame, name: string, values: Col, n: string)
    ensures Lookup(SetColumn(f, name, values), n) == if n == name then Some(Column(name, Numeric, values)) else Lookup(f, n)
  {
    FindSetIn(f.columns, Column(name, Numeric, values), n);
  }

  lemma {:induction false} ValuesInSetIn(cols: seq<Column>, c: Column, n: string)
    ensures ValuesIn(SetIn(cols, c), n) == if n == c.name then c.values else ValuesIn(cols, n)
  {
    if cols != [] && cols[0].name != c.name {
      ValuesInSetIn(cols[1..], c, n);
    }
  }

  lemma GetSet(f: Frame, name: string, values: Col, n: string)
    ensures Get(SetColumn(f, name, values), n) == if n == name then values else Get(f, n)
  {
    ValuesInSetIn(f.columns, Column(name, Numeric, values), n);
  }

  lemma {:induction false} SetInMembers(cols: seq<Column>, c: Column)
    ensures forall d :: d in SetIn(cols, c) ==> d in cols || d == c
  {
    if cols != [] && cols[0].name != c.name {
      SetInMembers(cols[1..], c);
    }
  }

  /** Setting a column of the frame's length keeps the frame well formed. */
  lemma SetWellFormed(f: Frame, name: string, values: Col)
    requires WellFormed(f) && |values| == Rows(f)
    ensures WellFormed(SetColumn(f, name, values))
  {
    SetInMembers(f.columns, Column(name, Numeric, values));
    var ns := Names(f);
    if name !in ns {
      forall i, j | 0 <= i < j < |ns + [name]| ensures (ns + [name])[i] != (ns + [name])[j] {
        if j == |ns| { assert ns[i] in ns; }
      }
    }
  }

  // ---------------------------------------------------------------- the first rows of a frame

  function TakeIndex(i: Index, m: nat): (r: Index)
    ensures IndexSize(r) == if m <= IndexSize(i) then m else IndexSize(i)
  {
    match i
    case DatetimeIndex(stamps) => DatetimeIndex(if m <= |stamps| then stamps[..m] else stamps)
    case OtherIndex(size) => OtherIndex(if m <= size then m else size)
  }

  function TakeColumn(c: Column, m: nat): Column
  {
    c.(values := Prefix(c.values, m))
  }

  function TakeColumns(cols: seq<Column>, m: nat): (r: seq<Column>)
    ensures NamesOf(r) == NamesOf(cols)
  {
    if cols == [] then [] else [TakeColumn(cols[0], m)] + TakeColumns(cols[1..], m)
  }

  /** `df.iloc[:m]`: what the frame held when only its first `m` rows existed. */
  function Take(f: Frame, m: nat): Frame
  {
    Frame(TakeIndex(f.index, m), TakeColumns(f.columns, m))
  }

  lemma {:induction false} ValuesInTake(cols: seq<Column>, m: nat, n: string)
    ensures ValuesIn(TakeColumns(cols, m), n) == Prefix(ValuesIn(cols, n), m)
  {
    if cols != [] && cols[0].name != n {
      ValuesInTake(cols[1..], m, n);
    }
  }

  /** A column of the first `m` rows is the first `m` values of the column. */
  lemma GetTake(f: Frame, m: nat, n: string)
    ensures Get(Take(f, m), n) == Prefix(Get(f, n), m)
    ensures Names(Take(f, m)) == Names(f)
  {
    ValuesInTake(f.columns, m, n);
  }

  lemma {:induction false} TakeSetIn(cols: seq<Column>, c: Column, m: nat)
    ensures TakeColumns(SetIn(cols, c), m) == SetIn(TakeColumns(cols, m), TakeColumn(c, m))
  {
    if cols != [] && cols[0].name != c.name {
      TakeSetIn(cols[1..], c, m);
    }
  }

  /** Setting a column, then keeping the first `m` rows, is keeping the first `m` rows,
      then setting the first `m` values. */
  lemma TakeSet(f: Frame, name: string, values: Col, m: nat)
    ensures Take(SetColumn(f, name, values), m) == SetColumn(Take(f, m), name, Prefix(values, m))
  {
    TakeSetIn(f.columns, Column(name, Numeric, values), m);
  }

  // ---------------------------------------------------------------- dropna

  /** Row `t` has a value in every column. */
  predicate Complete(f: Frame, t: nat)
  {
    forall c :: c in f.columns ==> t < |c.values| && c.values[t].Some?
  }

  /** The complete rows among the first `n`, in increasing order. */
  function KeptRows(f: Frame, n: nat): (rows: seq<nat>)
    ensures forall i :: 0 <= i < |rows| ==> rows[i] < n
    ensures forall i, j :: 0 <= i < j < |rows| ==> rows[i] < rows[j]
    ensures forall t: nat :: t in rows <==> t < n && Complete(f, t)
  {
    if n == 0 then [] else KeptRows(f, n - 1) + (if Complete(f, n - 1) then [n - 1] else [])
  }

  function Select(s: Col, rows: seq<nat>): Col
  {
    seq(|rows|, j requires 0 <= j < |rows| => At(s, rows[j]))
  }

  function SelectIndex(i: Index, rows: seq<nat>): (r: Index)
    requires forall j :: 0 <= j < |rows| ==> rows[j] < IndexSize(i)
    ensures IndexSize(r) == |rows|
  {
    match i
    case DatetimeIndex(stamps) =>
      assert |stamps| == IndexSize(i);
      DatetimeIndex(seq(|rows|, j requires 0 <= j < |rows| => stamps[rows[j]]))
    case OtherIndex(_) => OtherIndex(|rows|)
  }

  function SelectColumns(cols: seq<Column>, rows: seq<nat>): (r: seq<Column>)
    ensures NamesOf(r) == NamesOf(cols)
  {
    if cols == [] then [] else [cols[0].(values := Select(cols[0].values, rows))] + SelectColumns(cols[1..], rows)
  }

  /** `df.dropna()`: only the rows with no NaN in any column remain, in their order. */
  function DropNa(f: Frame): Frame
  {
    var rows := KeptRows(f, Rows(f));
    Frame(SelectIndex(f.index, rows), SelectColumns(f.columns, rows))
  }

  lemma {:induction false} SelectColumnsAt(cols: seq<Column>, rows: seq<nat>)
    ensures |SelectColumns(cols, rows)| == |cols|
    ensures forall i :: 0 <= i < |cols| ==> SelectColumns(cols, rows)[i] == cols[i].(values := Select(cols[i].values, rows))
  {
    if cols != [] {
      SelectColumnsAt(cols[1..], rows);
    }
  }

  lemma {:induction false} ValuesInSelect(cols: seq<Column>, rows: seq<nat>, n: string)
    ensures n in NamesOf(cols) ==> ValuesIn(SelectColumns(cols, rows), n) == Select(ValuesIn(cols, n), rows)
  {
    if cols != [] && cols[0].name != n {
      ValuesInSelect(cols[1..], rows, n);
    }
  }

  /** `dropna` keeps the column names, and every column keeps, in order, the values of
      exactly the complete rows. */
  lemma DropNaRows(f: Frame, n: string)
    ensures Names(DropNa(f)) == Names(f)
    ensures n in Names(f) ==> Get(DropNa(f), n) == Select(Get(f, n), KeptRows(f, Rows(f)))
  {
    ValuesInSelect(f.columns, KeptRows(f, Rows(f)), n);
  }

  lemma SelectedComplete(f: Frame, rows: seq<nat>, d: Column)
    requires d in f.columns
    requires forall j :: 0 <= j < |rows| ==> Complete(f, rows[j])
    ensures var s := Select(d.values, rows); |s| == |rows| && forall j :: 0 <= j < |s| ==> s[j].Some?
  {
    forall j | 0 <= j < |rows| ensures Select(d.values, rows)[j].Some? {
      assert Complete(f, rows[j]);
    }
  }

  /** Every row `dropna` returns has a value in every column. */
  lemma DropNaComplete(f: Frame)
    ensures var g := DropNa(f);
      forall c :: c in g.columns ==> |c.values| == Rows(g) && forall j :: 0 <= j < |c.values| ==> c.values[j].Some?
  {
    var rows := KeptRows(f, Rows(f));
    var g := DropNa(f);
    SelectColumnsAt(f.columns, rows);
    forall c | c in g.columns
      ensures |c.values| == Rows(g) && forall j :: 0 <= j < |c.values| ==> c.values[j].Some?
    {
      var i :| 0 <= i < |g.columns| && g.columns[i] == c;
      assert rows == KeptRows(f, Rows(f));
      SelectedComplete(f, rows, f.columns[i]);
    }
  }

  /** A row with a NaN in some column, or past the end of a column, is not complete, so
      `dropna` removes it. */
  lemma Incomplete(f: Frame, n: string, t: nat)
    requires n in Names(f) && At(Get(f, n), t).None?
    ensures !Complete(f, t) && t !in KeptRows(f, Rows(f))
  {
    ValuesInFound(f.columns, n);
    var c := Find(f.columns, n).value;
    assert c in f.columns && (t < |c.values| ==> c.values[t].None?);
  }

  /** In a well-formed frame every column has a value for every row. */
  lemma GetLength(f: Frame, n: string)
    requires WellFormed(f) && n in Names(f)
    ensures |Get(f, n)| == Rows(f)
  {
    ValuesInFound(f.columns, n);
  }
}
