/** The report controller and the date formatter it uses: both reports
    coerce their filters, apply pagination defaults and send one query;
    there is no validation before the call. */
module Report {

  import opened Options
  import opened Js
  import opened Text
  import opened Http

  /** `formatDate(v)`: a falsy value is null; otherwise the calendar day of
      `new Date(v).toISOString()`, the text before its first `T`. None
      stands for an exception: the `TypeError` of `new Date(v)` on a value
      without a primitive (`StringThrows`), or the one `toISOString` throws
      on an invalid date. */
  function FormatDate(v: JsValue, rt: Builtins): (r: Option<JsValue>)
    ensures !Truthy(v) ==> r == Some(Null)
    ensures Truthy(v) ==> (r.None? <==> StringThrows(v) || rt.dateIso(v).None?)
  {
    if !Truthy(v) then Some(Null)
    else if StringThrows(v) then None
    else match rt.dateIso(v)
      case None => None
      case Some(iso) => Some(Str(Split(iso, 'T')[0]))
  }

  /** A formatted date is the longest prefix of the ISO text without a `T`. */
  lemma {:induction false} FormatDateDay(v: JsValue, rt: Builtins, iso: string)
    requires Truthy(v) && rt.dateIso(v) == Some(iso)
    ensures StringThrows(v) <==> FormatDate(v, rt).None?
    ensures !StringThrows(v) ==> FormatDate(v, rt).Some? && FormatDate(v, rt).value.Str?
    ensures !StringThrows(v) ==>
              var day := FormatDate(v, rt).value.s;
              day <= iso && 'T' !in day && (|day| < |iso| ==> iso[|day|] == 'T')
  {
    SplitFirstPiece(iso, 'T');
  }

  /** The query fields of `GET /report/detail`. */
  datatype DetailQuery = DetailQuery(
    startDate: JsValue, endDate: JsValue, idCard: JsValue,
    departmentID: JsValue, startRange: JsValue, limitRange: JsValue)

  /** The query fields of `GET /report/total`. */
  datatype TotalQuery = TotalQuery(date: JsValue, endDate: JsValue, idCard: JsValue, departmentID: JsValue)

  const DetailError := Response(500, Plain("Error getting report detail"))

  /** Some field of the detail report makes `String` throw: in the date
      formatter or in one of the four `parseInt` calls, all inside the `try`. */
  predicate DetailThrows(q: DetailQuery)
  {
    StringThrows(q.startDate) || StringThrows(q.endDate) || StringThrows(q.idCard)
    || StringThrows(q.departmentID) || StringThrows(q.startRange) || StringThrows(q.limitRange)
  }

  /** Some field of the total report makes `String` throw. */
  predicate TotalThrows(q: TotalQuery)
  {
    StringThrows(q.date) || StringThrows(q.endDate) || StringThrows(q.idCard) || StringThrows(q.departmentID)
  }

  /** Both reports answer with the same texts: 200 with all rows, or 500. */
  function ReportAnswer(db: DbOutcome): (r: Response)
    ensures db.Rows? ==> r == Response(200, Json(Array(db.rows)))
    ensures db.Failure? ==> r == DetailError
  {
    match db
    case Rows(rows) => Response(200, Json(Array(rows)))
    case Failure(_, _) => DetailError
  }

  /** The detail report: an unparsable date, or a field on which `String`
      throws, throws before the query and is answered 500; otherwise `getquincenas` gets the six parameters
      `[start, end, card, department, offset, limit]`, the offset defaulting
      to 0 and the limit to 100 when absent or empty. */
  function DetailDecision(q: DetailQuery, rt: Builtins): (d: Decision)
    ensures d.Reject? <==> FormatDate(q.startDate, rt).None? || FormatDate(q.endDate, rt).None? || DetailThrows(q)
    ensures d.Reject? ==> d.response == DetailError
    ensures d.Forward? ==> d.query.statement == Select && d.query.routine == "getquincenas"
    ensures d.Forward? ==> |d.query.params| == 6
    ensures d.Forward? ==> (d.query.params[0] == FormatDate(q.startDate, rt).value
                           && d.query.params[1] == FormatDate(q.endDate, rt).value)
    ensures d.Forward? ==> (d.query.params[2] == Param(IntOrNull(q.idCard, Decimal, rt))
                           && d.query.params[3] == Param(IntOrNull(q.departmentID, Decimal, rt)))
    ensures d.Forward? ==> (d.query.params[4] == Number(IntOrDefault(q.startRange, rt, 0))
                           && d.query.params[5] == Number(IntOrDefault(q.limitRange, rt, 100)))
  {
    var start := FormatDate(q.startDate, rt);
    var end := FormatDate(q.endDate, rt);
    if start.None? || end.None? || DetailThrows(q) then Reject(DetailError)
    else
      Forward(Query(Select, "getquincenas",
                    [start.value, end.value,
                     Param(IntOrNull(q.idCard, Decimal, rt)), Param(IntOrNull(q.departmentID, Decimal, rt)),
                     Number(IntOrDefault(q.startRange, rt, 0)),
                     Number(IntOrDefault(q.limitRange, rt, 100))]))
  }

  /** At most one query, and no query only when a date fails to format or
      a field throws; the answer is 200 or 500. */
  function GetReportDetail(q: DetailQuery, rt: Builtins, db: DbOutcome): (t: Trace)
    ensures |t.queries| <= 1
    ensures t.queries == [] ==> t.response == DetailError
    ensures t.queries != [] ==> t.queries[0].routine == "getquincenas" && (t.response.status == 200 <==> db.Rows?)
    ensures t.response.status in {200, 500}
  {
    Execute(DetailDecision(q, rt), ReportAnswer(db))
  }

  /** The total report: the same 500 before the query; otherwise
      `getquincenastotal` gets four parameters `[date, end, card,
      department]` and no pagination. */
  function TotalDecision(q: TotalQuery, rt: Builtins): (d: Decision)
    ensures d.Reject? <==> FormatDate(q.date, rt).None? || FormatDate(q.endDate, rt).None? || TotalThrows(q)
    ensures d.Reject? ==> d.response == DetailError
    ensures d.Forward? ==> d.query == Query(Select, "getquincenastotal",
                                            [FormatDate(q.date, rt).value, FormatDate(q.endDate, rt).value,
                                             Param(IntOrNull(q.idCard, Decimal, rt)), Param(IntOrNull(q.departmentID, Decimal, rt))])
  {
    var start := FormatDate(q.date, rt);
    var end := FormatDate(q.endDate, rt);
    if start.None? || end.None? || TotalThrows(q) then Reject(DetailError)
    else
      Forward(Query(Select, "getquincenastotal",
                    [start.value, end.value, Param(IntOrNull(q.idCard, Decimal, rt)), Param(IntOrNull(q.departmentID, Decimal, rt))]))
  }

  /** The total report likewise, with `getquincenastotal`. */
  function GetReportTotal(q: TotalQuery, rt: Builtins, db: DbOutcome): (t: Trace)
    ensures |t.queries| <= 1
    ensures t.queries == [] ==> t.response == DetailError
    ensures t.queries != [] ==> t.queries[0].routine == "getquincenastotal" && (t.response.status == 200 <==> db.Rows?)
    ensures t.response.status in {200, 500}
  {
    Execute(TotalDecision(q, rt), ReportAnswer(db))
  }

  /** With dates that format, the detail report sends exactly one query
      unless a field throws, and answers 200 unless a field throws or the
      database fails. */
  lemma DetailAlwaysQueries(q: DetailQuery, rt: Builtins, db: DbOutcome)
    requires !Truthy(q.startDate) || rt.dateIso(q.startDate).Some?
    requires !Truthy(q.endDate) || rt.dateIso(q.endDate).Some?
    ensures |GetReportDetail(q, rt, db).queries| == (if DetailThrows(q) then 0 else 1)
    ensures GetReportDetail(q, rt, db).response.status == (if !DetailThrows(q) && db.Rows? then 200 else 500)
  {
  }

  /** The total report likewise. */
  lemma TotalAlwaysQueries(q: TotalQuery, rt: Builtins, db: DbOutcome)
    requires !Truthy(q.date) || rt.dateIso(q.date).Some?
    requires !Truthy(q.endDate) || rt.dateIso(q.endDate).Some?
    ensures |GetReportTotal(q, rt, db).queries| == (if TotalThrows(q) then 0 else 1)
    ensures GetReportTotal(q, rt, db).response.status == (if !TotalThrows(q) && db.Rows? then 200 else 500)
  {
  }

  /** `?IDCard[toString]=1`, read by an extended query parser, is the 500
      with no query in both reports. */
  lemma ToStringKeyFilterIsCaught(rt: Builtins, db: DbOutcome, k: JsValue)
    ensures GetReportDetail(DetailQuery(Undefined, Undefined, Object([("toString", k)]), Undefined, Undefined, Undefined), rt, db)
              == Trace([], DetailError)
    ensures GetReportTotal(TotalQuery(Undefined, Undefined, Object([("toString", k)]), Undefined), rt, db)
              == Trace([], DetailError)
  {
    OwnToStringThrows(k, [], []);
  }
}
