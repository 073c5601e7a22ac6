/**
  The "last N days" window that the historical vitals and activity handlers
  read: `end_date = today`, `start_date = end_date - timedelta(days=days-1)`,
  both sent to the store as ISO `YYYY-MM-DD` strings and compared as strings.
  Days are proleptic Gregorian ordinals (day 1 is 0001-01-01); the clock that
  gives `today` is a parameter.
 */
module History {
  import opened Text
  import opened Values
  import opened Dates
  import opened Query
  import opened Firebase
  import opened Schemas
  import opened Responses

  /** The largest magnitude `timedelta(days=…)` accepts. */
  const MaxDeltaDays := 999999999

  /** The range of a C `int`, to which `timedelta` converts its day count
      before checking its magnitude. */
  const CIntMin := -0x8000_0000
  const CIntMax := 0x7fff_ffff
  const CIntOverflow := "Python int too large to convert to C int"

  /** The window's first and last day as ordinals, or the `OverflowError` that
      building the `timedelta` or subtracting it raises. */
  function HistoricalWindow(today: int, days: int): (r: Result<(int, int)>)
    requires ValidOrdinal(today)
    ensures r.Ok? <==> -MaxDeltaDays <= days - 1 <= MaxDeltaDays && ValidOrdinal(today - (days - 1))
    ensures r.Ok? ==> r.value.1 == today && r.value.1 - r.value.0 + 1 == days
    ensures r.Err? ==> r.error.OverflowError?
    ensures !(CIntMin <= days - 1 <= CIntMax) ==> r == Err(OverflowError(CIntOverflow))
  {
    if days - 1 < CIntMin || days - 1 > CIntMax then
      Err(OverflowError(CIntOverflow))
    else if days - 1 < -MaxDeltaDays || days - 1 > MaxDeltaDays then
      Err(OverflowError("days=" + IntText(days - 1) + "; must have magnitude <= 999999999"))
    else if !ValidOrdinal(today - (days - 1)) then
      Err(OverflowError("date value out of range"))
    else
      Ok((today - (days - 1), today))
  }

  /** `start <= s <= end` on strings, as the two `where` filters test it. */
  predicate InWindow(start: string, end: string, s: string)
  {
    LexLessEq(start, s) && LexLessEq(s, end)
  }

  /** On ISO day strings, the string window is exactly the day window. */
  lemma WindowSelects(start: int, end: int, k: int)
    requires ValidOrdinal(start) && ValidOrdinal(end) && ValidOrdinal(k)
    ensures InWindow(IsoDay(start), IsoDay(end), IsoDay(k)) <==> start <= k <= end
  {
    IsoDayOrder(start, k);
    IsoDayOrder(k, end);
  }

  /** A window that ends before it starts (`days <= 0`) holds no string. */
  lemma EmptyWindow(start: int, end: int, s: string)
    requires ValidOrdinal(start) && ValidOrdinal(end) && end < start
    ensures !InWindow(IsoDay(start), IsoDay(end), s)
  {
    var a, b := IsoDay(start), IsoDay(end);
    IsoDayOrder(end, start);
    if LexLessEq(a, s) && LexLessEq(s, b) {
      if a == s {
        LexLessAsymmetric(b, a);
      } else if s == b {
        LexLessAsymmetric(b, a);
      } else {
        LexLessTransitive(a, s, b);
        LexLessAsymmetric(a, b);
      }
    }
  }

  /** The store's date-range query selects exactly the documents whose `date`
      is a string inside the window. */
  lemma DateRangeSelected(c: Coll, start: string, end: string, id: string)
    ensures Selected(c, DateRange(start, end), id) <==>
      id in c && "date" in c[id] && c[id]["date"].Str? && InWindow(start, end, c[id]["date"].s)
  {
    if id in c && "date" in c[id] && c[id]["date"].Str? {
      var s := c[id]["date"].s;
      LexLessTotal(s, start);
      LexLessTotal(s, end);
      LexLessIrreflexive(s);
      if LexLess(s, start) && LexLess(start, s) {
        LexLessAsymmetric(s, start);
      }
      if LexLess(s, end) && LexLess(end, s) {
        LexLessAsymmetric(s, end);
      }
      var q, k := DateRange(start, end), StrKey(s);
      assert KeyOf(c[id], "date") == Some(k);
      assert |q.filters| == 2 && q.filters[0] == Filter(Ge, StrKey(start)) && q.filters[1] == Filter(Le, StrKey(end));
      assert Passes(k, q.filters[0]) <==> LexLessEq(start, s);
      assert Passes(k, q.filters[1]) <==> LexLessEq(s, end);
    } else if id in c && KeyOf(c[id], "date").Some? {
      var q := DateRange(start, end);
      assert !Passes(KeyOf(c[id], "date").value, q.filters[0]);
    }
  }

  /** What a date-range read over one user's documents returns for a window of
      days: every document dated on a day of the window, only documents whose
      date string lies in the window, oldest first, and nothing at all for an
      empty window. */
  lemma WindowAnswer(c: Coll, start: int, end: int, ids: seq<string>)
    requires ValidOrdinal(start) && ValidOrdinal(end)
    requires IsAnswer(c, DateRange(IsoDay(start), IsoDay(end)), ids)
    ensures forall id, k :: id in c && start <= k <= end && ValidOrdinal(k) && DatedAs(c[id], IsoDay(k)) ==> id in ids
    ensures forall i :: 0 <= i < |ids| ==>
      ids[i] in c && "date" in c[ids[i]] && c[ids[i]]["date"].Str? &&
      InWindow(IsoDay(start), IsoDay(end), c[ids[i]]["date"].s)
    ensures forall i, j :: 0 <= i < j < |ids| ==>
      LexLessEq(c[ids[i]]["date"].s, c[ids[j]]["date"].s)
    ensures end < start ==> ids == []
  {
    var q := DateRange(IsoDay(start), IsoDay(end));
    forall id, k | id in c && start <= k <= end && ValidOrdinal(k) && DatedAs(c[id], IsoDay(k))
      ensures id in ids
    {
      WindowSelects(start, end, k);
      DateRangeSelected(c, IsoDay(start), IsoDay(end), id);
    }
    forall i | 0 <= i < |ids|
      ensures ids[i] in c && "date" in c[ids[i]] && c[ids[i]]["date"].Str? &&
        InWindow(IsoDay(start), IsoDay(end), c[ids[i]]["date"].s)
    {
      DateRangeSelected(c, IsoDay(start), IsoDay(end), ids[i]);
    }
    forall i, j | 0 <= i < j < |ids|
      ensures LexLessEq(c[ids[i]]["date"].s, c[ids[j]]["date"].s)
    {
      assert Before(c, q, ids[i], ids[j]);
    }
    if end < start && ids != [] {
      DateRangeSelected(c, IsoDay(start), IsoDay(end), ids[0]);
      EmptyWindow(start, end, c[ids[0]]["date"].s);
    }
  }

  /** The body of a historical read: the documents as models, the requested
      day count, and the window's ISO bounds. */
  datatype HistoricalResponse = HistoricalResponse(data: seq<Doc>, days: int, startDate: string, endDate: string)

  /** The documents a range read hands back for the answer `ids`: each one
      as stored, with the caller's id written into `user_id`. */
  function Rows(c: Coll, ids: seq<string>, u: string): (r: seq<Doc>)
    requires forall i :: 0 <= i < |ids| ==> ids[i] in c
    ensures |r| == |ids|
  {
    seq(|ids|, i requires 0 <= i < |ids| => c[ids[i]]["user_id" := Str(u)])
  }

  /** What a historical handler returns for `days` back from `today`, when `c`
      holds the caller's documents and `ids` is the store's answer to the
      window's query: the window's overflow as a 500; otherwise every row
      built as `model`, the first that fails as a 500, or the response. */
  ghost predicate HistoricalOutcome(model: string, schema: seq<Field>, prefix: string, c: Coll, u: string,
                                    today: int, days: int, ids: seq<string>, r: Result<HistoricalResponse>)
    requires ValidOrdinal(today)
  {
    match HistoricalWindow(today, days)
    case Err(e) => r == Err(Wrapped(prefix, e))
    case Ok((start, end)) =>
      IsAnswer(c, DateRange(IsoDay(start), IsoDay(end)), ids) &&
      r == match ConformAll(model, schema, Rows(c, ids, u))
           case Err(e) => Err(Wrapped(prefix, e))
           case Ok(data) => Ok(HistoricalResponse(data, days, IsoDay(start), IsoDay(end)))
  }

  /** The documents a range read stamped with the caller's id are its rows. */
  lemma StampedRows(c: Coll, ids: seq<string>, u: string, docs: seq<Doc>)
    requires forall i :: 0 <= i < |ids| ==> ids[i] in c
    requires |docs| == |ids| && forall i :: 0 <= i < |ids| ==> docs[i] == c[ids[i]]["user_id" := Str(u)]
    ensures docs == Rows(c, ids, u)
  {
  }

  /** With no documents, the empty answer is the answer to any query. */
  lemma EmptyAnswer(q: Query)
    ensures IsAnswer(map[], q, [])
  {
  }

  /** The outcome of a window that exists, once its rows are built. */
  lemma WindowRead(model: string, schema: seq<Field>, prefix: string, c: Coll, u: string,
                   today: int, days: int, start: int, end: int, ids: seq<string>, r: Result<HistoricalResponse>)
    requires ValidOrdinal(today) && HistoricalWindow(today, days) == Ok((start, end))
    requires IsAnswer(c, DateRange(IsoDay(start), IsoDay(end)), ids)
    requires forall i :: 0 <= i < |ids| ==> ids[i] in c
    requires r == match ConformAll(model, schema, Rows(c, ids, u))
                  case Err(e) => Err(Wrapped(prefix, e))
                  case Ok(data) => Ok(HistoricalResponse(data, days, IsoDay(start), IsoDay(end)))
    ensures HistoricalOutcome(model, schema, prefix, c, u, today, days, ids, r)
  {
  }

  /** A successful historical read echoes `days`, ends today, and holds one
      model per document of the window, in the store's order; a read of no
      days (or fewer) returns no data, its start `1 - days` days after today. */
  lemma {:induction false} HistoricalFacts(model: string, schema: seq<Field>, prefix: string, c: Coll, u: string,
                                           today: int, days: int, ids: seq<string>, r: Result<HistoricalResponse>)
    requires ValidOrdinal(today) && HistoricalOutcome(model, schema, prefix, c, u, today, days, ids, r)
    ensures r.Ok? ==> r.value.days == days && r.value.endDate == IsoDay(today) && |r.value.data| == |ids|
    ensures r.Ok? ==> forall i :: 0 <= i < |ids| ==> ids[i] in c && Conform(model, schema, c[ids[i]]["user_id" := Str(u)]) == Ok(r.value.data[i])
    ensures r.Ok? && days <= 0 ==> r.value.data == [] && r.value.startDate == IsoDay(today - days + 1)
    ensures r.Err? ==> r.error.HttpError? && r.error.status == 500
  {
    match HistoricalWindow(today, days)
    case Err(e) =>
    case Ok((start, end)) =>
      WindowOutcome(model, schema, prefix, c, u, today, days, start, ids, r);
  }

  /** A window over which nothing is stored reads as empty data, not as an
      error. */
  lemma NothingStored(model: string, schema: seq<Field>, prefix: string, u: string,
                      today: int, days: int, ids: seq<string>, r: Result<HistoricalResponse>)
    requires ValidOrdinal(today) && HistoricalWindow(today, days).Ok?
    requires HistoricalOutcome(model, schema, prefix, map[], u, today, days, ids, r)
    ensures ids == [] && r.Ok? && r.value.data == []
  {
    var (start, end) := HistoricalWindow(today, days).value;
    AnswerEmpty(map[], DateRange(IsoDay(start), IsoDay(end)), ids);
  }

  /** `HistoricalFacts` for a window that exists, stated over its first day. */
  lemma WindowOutcome(model: string, schema: seq<Field>, prefix: string, c: Coll, u: string,
                      today: int, days: int, start: int, ids: seq<string>, r: Result<HistoricalResponse>)
    requires ValidOrdinal(start) && ValidOrdinal(today) && start == today - days + 1
    requires IsAnswer(c, DateRange(IsoDay(start), IsoDay(today)), ids)
    requires r == match ConformAll(model, schema, Rows(c, ids, u))
                  case Err(e) => Err(Wrapped(prefix, e))
                  case Ok(data) => Ok(HistoricalResponse(data, days, IsoDay(start), IsoDay(today)))
    ensures r.Ok? ==> r.value.days == days && r.value.endDate == IsoDay(today) && |r.value.data| == |ids|
    ensures r.Ok? ==> forall i :: 0 <= i < |ids| ==> ids[i] in c && Conform(model, schema, c[ids[i]]["user_id" := Str(u)]) == Ok(r.value.data[i])
    ensures r.Ok? && days <= 0 ==> r.value.data == [] && r.value.startDate == IsoDay(today - days + 1)
    ensures r.Err? ==> r.error.HttpError? && r.error.status == 500
  {
    SelectedRows(c, DateRange(IsoDay(start), IsoDay(today)), ids);
    RowsOutcome(model, schema, prefix, c, u, days, IsoDay(start), IsoDay(today), ids, r);
    if days <= 0 {
      NoDaysNoRows(c, start, today, ids);
    }
  }

  /** An empty window's answer selects no document. */
  lemma NoDaysNoRows(c: Coll, start: int, end: int, ids: seq<string>)
    requires ValidOrdinal(start) && ValidOrdinal(end) && end < start
    requires IsAnswer(c, DateRange(IsoDay(start), IsoDay(end)), ids)
    ensures ids == []
  {
    WindowAnswer(c, start, end, ids);
  }

  /** The facts `HistoricalFacts` draws from building the rows of a window
      whose bounds are `startIso` and `endIso`. */
  lemma RowsOutcome(model: string, schema: seq<Field>, prefix: string, c: Coll, u: string, days: int,
                    startIso: string, endIso: string, ids: seq<string>, r: Result<HistoricalResponse>)
    requires forall i :: 0 <= i < |ids| ==> ids[i] in c
    requires r == match ConformAll(model, schema, Rows(c, ids, u))
                  case Err(e) => Err(Wrapped(prefix, e))
                  case Ok(data) => Ok(HistoricalResponse(data, days, startIso, endIso))
    ensures r.Ok? ==> r.value.days == days && r.value.startDate == startIso && r.value.endDate == endIso
    ensures r.Ok? ==> |r.value.data| == |ids| && forall i :: 0 <= i < |ids| ==>
      Conform(model, schema, c[ids[i]]["user_id" := Str(u)]) == Ok(r.value.data[i])
    ensures r.Err? ==> r.error.HttpError? && r.error.status == 500
  {
    if r.Ok? {
      BuiltRows(model, schema, c, ids, u, r.value.data);
    }
  }

  lemma SelectedRows(c: Coll, q: Query, ids: seq<string>)
    requires IsAnswer(c, q, ids)
    ensures forall i :: 0 <= i < |ids| ==> ids[i] in c
  {
    assert forall i :: 0 <= i < |ids| ==> Selected(c, q, ids[i]);
  }

  /** The models built from the rows of an answer, one per document. */
  lemma BuiltRows(model: string, schema: seq<Field>, c: Coll, ids: seq<string>, u: string, data: seq<Doc>)
    requires forall i :: 0 <= i < |ids| ==> ids[i] in c
    requires ConformAll(model, schema, Rows(c, ids, u)) == Ok(data)
    ensures |data| == |ids|
    ensures forall i :: 0 <= i < |ids| ==> Conform(model, schema, c[ids[i]]["user_id" := Str(u)]) == Ok(data[i])
  {
    var rows := Rows(c, ids, u);
    assert forall i :: 0 <= i < |ids| ==> rows[i] == c[ids[i]]["user_id" := Str(u)];
  }
}
