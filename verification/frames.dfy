/**
 * A column-oriented table in the style of a pandas DataFrame: named columns
 * of equal length, column lookup, column assignment, dropping columns by name
 * and replacing the header.
 */
module Frames {
  import opened Results
  import opened Floats

  /** One cell: a number, a string, or a categorical value (`None` is the missing category). */
  datatype Cell = Num(x: Float) | Str(s: string) | Cat(category: Option<string>)

  datatype Column = Column(name: string, cells: seq<Cell>)

  /** A table of `rows` rows; every column is meant to hold one cell per row. */
  datatype Frame = Frame(rows: nat, columns: seq<Column>)

  predicate WellFormed(f: Frame) {
    forall i :: 0 <= i < |f.columns| ==> |f.columns[i].cells| == f.rows
  }

  function Names(cols: seq<Column>): (r: seq<string>)
    ensures |r| == |cols|
    ensures forall i :: 0 <= i < |cols| ==> r[i] == cols[i].name
  {
    if |cols| == 0 then [] else [cols[0].name] + Names(cols[1..])
  }

  /** Position of the first occurrence of `name` in a header. */
  function IndexOf(header: seq<string>, name: string): (r: Option<nat>)
    ensures r.None? <==> name !in header
    ensures r.Some? ==> r.value < |header| && header[r.value] == name
    ensures r.Some? ==> forall i :: 0 <= i < r.value ==> header[i] != name
  {
    if |header| == 0 then None
    else if header[0] == name then Some(0)
    else
      match IndexOf(header[1..], name)
      case None => None
      case Some(i) => Some(i + 1)
  }

  /** Appending a name leaves the position of every name already present unchanged. */
  lemma {:induction false} IndexOfAppend(header: seq<string>, extra: string, name: string)
    ensures IndexOf(header + [extra], name) ==
              if name in header then IndexOf(header, name)
              else if name == extra then Some(|header|)
              else None
  {
    if |header| > 0 {
      assert (header + [extra])[1..] == header[1..] + [extra];
      IndexOfAppend(header[1..], extra, name);
    }
  }

  /** `df[name]`: the cells of the first column called `name`; a KeyError when there is none. */
  function GetColumn(f: Frame, name: string): (r: Result<seq<Cell>, Error>)
    ensures r.Err? <==> name !in Names(f.columns)
    ensures r.Err? ==> r.error == MissingColumn(name)
    ensures r.Ok? ==> exists i :: 0 <= i < |f.columns| && f.columns[i] == Column(name, r.value)
    ensures r.Ok? && WellFormed(f) ==> |r.value| == f.rows
  {
    match IndexOf(Names(f.columns), name)
    case None => Err(MissingColumn(name))
    case Some(i) => Ok(f.columns[i].cells)
  }

  /**
   * `df[name] = cells`: replaces the column called `name` where it stands,
   * or appends a new column at the right-hand end.
   */
  function SetColumn(f: Frame, name: string, cells: seq<Cell>): (r: Frame)
    requires |cells| == f.rows
    ensures r.rows == f.rows
    ensures WellFormed(f) ==> WellFormed(r)
    ensures name !in Names(f.columns) ==> r.columns == f.columns + [Column(name, cells)]
    ensures name in Names(f.columns) ==> Names(r.columns) == Names(f.columns)
    ensures name in Names(r.columns)
  {
    match IndexOf(Names(f.columns), name)
    case None =>
      var r := Frame(f.rows, f.columns + [Column(name, cells)]);
      assert Names(r.columns)[|f.columns|] == name;
      r
    case Some(i) =>
      var r := Frame(f.rows, f.columns[i := Column(name, cells)]);
      assert Names(r.columns) == Names(f.columns);
      r
  }

  /** After `df[name] = cells`, reading `name` gives `cells` and every other column reads as before. */
  lemma SetThenGet(f: Frame, name: string, cells: seq<Cell>, other: string)
    requires |cells| == f.rows
    ensures GetColumn(SetColumn(f, name, cells), name) == Ok(cells)
    ensures other != name ==> GetColumn(SetColumn(f, name, cells), other) == GetColumn(f, other)
  {
    var r := SetColumn(f, name, cells);
    if name !in Names(f.columns) {
      assert Names(r.columns) == Names(f.columns) + [name];
      IndexOfAppend(Names(f.columns), name, name);
      IndexOfAppend(Names(f.columns), name, other);
    }
  }

  /** The columns whose names are not in `names`, in their original order. */
  function Keep(cols: seq<Column>, names: seq<string>): (r: seq<Column>)
    ensures |r| <= |cols|
    ensures forall c :: c in r <==> c in cols && c.name !in names
  {
    if |cols| == 0 then []
    else (if cols[0].name in names then [] else [cols[0]]) + Keep(cols[1..], names)
  }

  /** Keeping distributes over concatenation, which is what fixes the order of the survivors. */
  lemma {:induction false} KeepAppend(a: seq<Column>, b: seq<Column>, names: seq<string>)
    ensures Keep(a + b, names) == Keep(a, names) + Keep(b, names)
  {
    if |a| == 0 {
      assert a + b == b;
    } else {
      assert (a + b)[1..] == a[1..] + b;
      KeepAppend(a[1..], b, names);
    }
  }

  /** Keeping nothing of columns whose every name is listed. */
  lemma {:induction false} KeepNone(cols: seq<Column>, names: seq<string>)
    requires forall i :: 0 <= i < |cols| ==> cols[i].name in names
    ensures Keep(cols, names) == []
  {
    if |cols| > 0 {
      KeepNone(cols[1..], names);
    }
  }

  /** Keeping everything of columns none of whose names is listed. */
  lemma {:induction false} KeepAll(cols: seq<Column>, names: seq<string>)
    requires forall i :: 0 <= i < |cols| ==> cols[i].name !in names
    ensures Keep(cols, names) == cols
  {
    if |cols| > 0 {
      KeepAll(cols[1..], names);
      assert cols == [cols[0]] + cols[1..];
    }
  }

  /**
   * `df.drop(columns=names)`: every listed name must be present (otherwise a
   * KeyError for the first one missing); all columns so named are removed.
   */
  function Drop(f: Frame, names: seq<string>): (r: Result<Frame, Error>)
    ensures r.Err? <==> exists n :: n in names && n !in Names(f.columns)
    ensures r.Err? ==> r.error.MissingColumn? && r.error.name in names && r.error.name !in Names(f.columns)
    ensures r.Ok? ==> r.value == Frame(f.rows, Keep(f.columns, names))
    ensures r.Ok? && WellFormed(f) ==> WellFormed(r.value)
  {
    if |names| == 0 then Ok(Frame(f.rows, Keep(f.columns, names)))
    else if names[0] !in Names(f.columns) then
      assert names[0] in names;
      Err(MissingColumn(names[0]))
    else
      assert names == [names[0]] + names[1..];
      match Drop(f, names[1..])
      case Err(e) =>
        assert e.name in names;
        Err(e)
      case Ok(_) =>
        Ok(Frame(f.rows, Keep(f.columns, names)))
  }

  /** Dropping every name of `f` from `f` followed by columns named otherwise leaves those columns. */
  lemma DropAppended(f: Frame, d: seq<Column>, names: seq<string>)
    requires forall n :: n in names ==> n in Names(f.columns)
    requires forall i :: 0 <= i < |f.columns| ==> f.columns[i].name in names
    requires forall i :: 0 <= i < |d| ==> d[i].name !in names
    ensures Drop(Frame(f.rows, f.columns + d), names) == Ok(Frame(f.rows, d))
  {
    var g := Frame(f.rows, f.columns + d);
    NamesConcat(f.columns, d);
    assert forall n :: n in names ==> n in Names(g.columns);
    assert Drop(g, names).Ok?;
    KeepAppend(f.columns, d, names);
    KeepNone(f.columns, names);
    KeepAll(d, names);
    assert Keep(g.columns, names) == d;
  }

  /** Dropping from `f` succeeds exactly when every name is in `g`, if `f` and `g` agree on the presence of those names. */
  lemma DropOkIff(f: Frame, g: Frame, names: seq<string>)
    requires forall n :: n in names ==> (n in Names(f.columns) <==> n in Names(g.columns))
    ensures Drop(f, names).Ok? <==> forall n :: n in names ==> n in Names(g.columns)
  {
  }

  /** `df.columns = [''] * len(df.columns)`: every header becomes the empty string. */
  function BlankHeaders(f: Frame): (r: Frame)
    ensures r.rows == f.rows && |r.columns| == |f.columns|
    ensures forall i :: 0 <= i < |r.columns| ==> r.columns[i] == Column("", f.columns[i].cells)
    ensures WellFormed(f) ==> WellFormed(r)
  {
    Frame(f.rows, seq(|f.columns|, i requires 0 <= i < |f.columns| => Column("", f.columns[i].cells)))
  }

  lemma NamesOfFour(c0: Column, c1: Column, c2: Column, c3: Column)
    ensures Names([c0, c1, c2, c3]) == [c0.name, c1.name, c2.name, c3.name]
  {
    assert [c0, c1, c2, c3][1..] == [c1, c2, c3];
    assert [c1, c2, c3][1..] == [c2, c3];
    assert [c2, c3][1..] == [c3];
  }

  lemma {:induction false} NamesConcat(a: seq<Column>, b: seq<Column>)
    ensures Names(a + b) == Names(a) + Names(b)
  {
    if |a| > 0 {
      assert (a + b)[1..] == a[1..] + b;
      NamesConcat(a[1..], b);
    }
  }

  lemma {:induction false} IndexOfPrefix(a: seq<string>, b: seq<string>, name: string)
    requires name in a
    ensures IndexOf(a + b, name) == IndexOf(a, name)
  {
    if a[0] != name {
      assert (a + b)[1..] == a[1..] + b;
      IndexOfPrefix(a[1..], b, name);
    }
  }

  /** Assigning a column under a name the table lacks appends it. */
  lemma AppendFresh(f: Frame, c: Column)
    requires |c.cells| == f.rows && c.name !in Names(f.columns)
    ensures SetColumn(f, c.name, c.cells) == Frame(f.rows, f.columns + [c])
  {
  }

  /** Assigning a column under a name neither the table nor the columns appended to it carry appends it after them. */
  lemma AppendAfter(f: Frame, extra: seq<Column>, c: Column)
    requires |c.cells| == f.rows && c.name !in Names(f.columns) && c.name !in Names(extra)
    ensures SetColumn(Frame(f.rows, f.columns + extra), c.name, c.cells) == Frame(f.rows, f.columns + (extra + [c]))
  {
    NamesConcat(f.columns, extra);
    AppendFresh(Frame(f.rows, f.columns + extra), c);
  }

  // The same, spelled out for the second, third and fourth column appended.

  lemma AppendSecond(f: Frame, c0: Column, c1: Column)
    requires |c1.cells| == f.rows && c1.name !in Names(f.columns) && c1.name != c0.name
    ensures SetColumn(Frame(f.rows, f.columns + [c0]), c1.name, c1.cells) == Frame(f.rows, f.columns + [c0, c1])
  {
    AppendAfter(f, [c0], c1);
    assert [c0] + [c1] == [c0, c1];
  }

  lemma AppendThird(f: Frame, c0: Column, c1: Column, c2: Column)
    requires |c2.cells| == f.rows && c2.name !in Names(f.columns) && c2.name != c0.name && c2.name != c1.name
    ensures SetColumn(Frame(f.rows, f.columns + [c0, c1]), c2.name, c2.cells) == Frame(f.rows, f.columns + [c0, c1, c2])
  {
    assert Names([c0, c1]) == [c0.name, c1.name];
    AppendAfter(f, [c0, c1], c2);
    assert [c0, c1] + [c2] == [c0, c1, c2];
  }

  lemma AppendFourth(f: Frame, c0: Column, c1: Column, c2: Column, c3: Column)
    requires |c3.cells| == f.rows && c3.name !in Names(f.columns)
    requires c3.name != c0.name && c3.name != c1.name && c3.name != c2.name
    ensures SetColumn(Frame(f.rows, f.columns + [c0, c1, c2]), c3.name, c3.cells) == Frame(f.rows, f.columns + [c0, c1, c2, c3])
  {
    assert Names([c0, c1, c2]) == [c0.name, c1.name, c2.name];
    AppendAfter(f, [c0, c1, c2], c3);
    assert [c0, c1, c2] + [c3] == [c0, c1, c2, c3];
  }

  /** Columns appended on the right do not change what an existing name reads. */
  lemma ReadThroughAppend(f: Frame, extra: seq<Column>, name: string)
    requires name in Names(f.columns)
    ensures GetColumn(Frame(f.rows, f.columns + extra), name) == GetColumn(f, name)
  {
    NamesConcat(f.columns, extra);
    IndexOfPrefix(Names(f.columns), Names(extra), name);
  }
}
