/** The data accessor: `get_data`, which calls a host query with or without
    its key, and `to_df`, which turns a list of records into table rows.
    Both are generic in the record type `R`; `row` gives a record's
    attribute dictionary. */
module Accessor {
  import opened Python
  import opened Trader

  /** The `arg` handed to `get_data`: None, a key string, or a query object. */
  datatype Arg = ArgNone | ArgStr(s: string) | ArgRequest(req: HistoryRequest)

  /** Python truthiness of an argument: None and "" are false, a query
      object (a plain dataclass instance) is always true. */
  predicate Truthy(a: Arg)
    ensures Truthy(a) <==> a != ArgNone && a != ArgStr("")
  {
    match a
    case ArgNone => false
    case ArgStr(s) => s != ""
    case ArgRequest(_) => true
  }

  /** How a host query is invoked: `func()` or `func(arg)`. */
  datatype Call = NoArgs | OneArg(arg: Arg)

  /** What a host query hands back: None, one record, or a list whose slots
      may hold None. */
  datatype Data<R> = Null | Record(rec: R) | List(items: seq<Option<R>>)

  /** What the accessor hands to the script: the data as it came, or a table
      (a pandas DataFrame, given as its rows). A `to_df` that returns None is
      `Raw(Null)`. */
  datatype Answer<R> = Raw(data: Data<R>) | Table(rows: seq<Row>)

  /** A record found or not, as the host returns it. */
  function Found<R>(o: Option<R>): (d: Data<R>)
    ensures d.Null? <==> o.None?
    ensures o.Some? ==> d == Record(o.value)
  {
    match o
    case None => Null
    case Some(x) => Record(x)
  }

  /** A list of records, none of them None. */
  function Somes<R>(s: seq<R>): (r: seq<Option<R>>)
    ensures |r| == |s|
    ensures forall k :: 0 <= k < |s| ==> r[k] == Some(s[k])
  {
    seq(|s|, k requires 0 <= k < |s| => Some(s[k]))
  }

  /** `[data.__dict__ for data in data_list if data]` */
  function Rows<R>(items: seq<Option<R>>, row: R -> Row): (r: seq<Row>)
    ensures |r| <= |items|
    ensures |r| == |items| ==> forall k :: 0 <= k < |items| ==> items[k].Some?
  {
    if items == [] then []
    else
      var rest := Rows(items[1..], row);
      assert forall k :: 1 <= k < |items| ==> items[k] == items[1..][k - 1];
      (if items[0].Some? then [row(items[0].value)] else []) + rest
  }

  /** `to_df`: None for an empty list, otherwise a table of one row per
      element that is not None. */
  function ToDf<R>(items: seq<Option<R>>, row: R -> Row): (r: Answer<R>)
    ensures r == Raw(Null) <==> items == []
    ensures items != [] ==> r == Table(Rows(items, row))
  {
    if items == [] then Raw(Null) else Table(Rows(items, row))
  }

  lemma {:induction false} RowsAppend<R>(a: seq<Option<R>>, b: seq<Option<R>>, row: R -> Row)
    ensures Rows(a + b, row) == Rows(a, row) + Rows(b, row)
    decreases |a|
  {
    if a == [] {
      assert a + b == b;
    } else {
      assert (a + b)[0] == a[0];
      assert (a + b)[1..] == a[1..] + b;
      RowsAppend(a[1..], b, row);
    }
  }

  /** A list of records with no None gives exactly one row per record, in
      list order. */
  lemma {:induction false} RowsOfRecords<R>(s: seq<R>, row: R -> Row)
    ensures |Rows(Somes(s), row)| == |s|
    ensures forall k :: 0 <= k < |s| ==> Rows(Somes(s), row)[k] == row(s[k])
    decreases |s|
  {
    if s != [] {
      assert Somes(s)[1..] == Somes(s[1..]);
      RowsOfRecords(s[1..], row);
    }
  }

  /** Elements that are None contribute no row. */
  lemma {:induction false} RowsOfAbsent<R>(items: seq<Option<R>>, row: R -> Row)
    requires forall k :: 0 <= k < |items| ==> items[k].None?
    ensures Rows(items, row) == []
    decreases |items|
  {
    if items != [] {
      RowsOfAbsent(items[1..], row);
    }
  }

  /** A non-empty list of Nones is a table with no rows, not None. */
  lemma AllAbsentIsEmptyTable<R>(items: seq<Option<R>>, row: R -> Row)
    requires items != []
    requires forall k :: 0 <= k < |items| ==> items[k].None?
    ensures ToDf(items, row) == Table([])
  {
    RowsOfAbsent(items, row);
  }

  /** The `use_df` tail of `get_data`: without `use_df` the data is handed
      back untouched; with it, None stays None, a single record is wrapped
      in a one-element list, and a list goes to `to_df`. */
  function Shape<R>(data: Data<R>, useDf: bool, row: R -> Row): (r: Answer<R>)
    ensures !useDf ==> r == Raw(data)
    ensures useDf ==> (r == Raw(Null) <==> data == Null || data == List([]))
    ensures useDf && data.Record? ==> r == Table([row(data.rec)])
    ensures useDf && data.List? && data.items != [] ==> r == Table(Rows(data.items, row))
  {
    if !useDf then Raw(data)
    else match data
      case Null => Raw(Null)
      case Record(x) =>
        assert [Some(x)][1..] == [];
        assert Rows([Some(x)], row) == [row(x)] + Rows([], row);
        ToDf([Some(x)], row)
      case List(items) => ToDf(items, row)
  }

  /** The call `get_data` makes: `func()` when `arg` is falsy, `func(arg)`
      otherwise (`if not arg`). */
  function CallFor(arg: Arg): (c: Call)
    ensures c == NoArgs <==> !Truthy(arg)
    ensures c.OneArg? ==> c.arg == arg
  {
    if !Truthy(arg) then NoArgs else OneArg(arg)
  }

  /** `get_data(func, arg, use_df)`. `func` is a host query given as the
      outcome of each way of calling it; an exception it raises propagates. */
  function GetData<R>(func: Call -> Outcome<Data<R>>, arg: Arg, useDf: bool, row: R -> Row)
    : (r: Outcome<Answer<R>>)
    ensures Truthy(arg) && func(OneArg(arg)).Raised? ==> r == Raised(func(OneArg(arg)).error)
    ensures Truthy(arg) && func(OneArg(arg)).Ok? ==> r == Ok(Shape(func(OneArg(arg)).value, useDf, row))
    ensures !Truthy(arg) && func(NoArgs).Raised? ==> r == Raised(func(NoArgs).error)
    ensures !Truthy(arg) && func(NoArgs).Ok? ==> r == Ok(Shape(func(NoArgs).value, useDf, row))
  {
    match func(CallFor(arg))
    case Raised(e) => Raised(e)
    case Ok(data) => Ok(Shape(data, useDf, row))
  }

  /** The empty key is not told apart from a missing one: `get_data` with
      `arg=""` behaves exactly as with no `arg` at all. */
  lemma EmptyKeyActsAsNoKey<R>(func: Call -> Outcome<Data<R>>, useDf: bool, row: R -> Row)
    ensures GetData(func, ArgStr(""), useDf, row) == GetData(func, ArgNone, useDf, row)
  {
  }
}
