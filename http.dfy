/** What a request handler does, seen from outside: at most one statement
    sent to the database, then exactly one HTTP response. */
module Http {

  import opened Options
  import opened Js

  /** A response body: JSON (`res.json(v)`) or plain text (`res.send(t)`). */
  datatype Body = Json(value: JsValue) | Plain(text: string)

  datatype Response = Response(status: int, body: Body)

  /** The JSON object `{ message: m }` that most handlers answer with. */
  function Message(m: string): Body
  {
    Json(Object([("message", Str(m))]))
  }

  /** The JSON object `{ message: m, error: e }`, carrying the driver's error text. */
  function MessageWithError(m: string, e: string): Body
  {
    Json(Object([("message", Str(m)), ("error", Str(e))]))
  }

  /** `SELECT * FROM f(...)` or `CALL p(...)`. */
  datatype Statement = Select | Call

  /** One statement for `pool.query`: the routine and its positional parameters. */
  datatype Query = Query(statement: Statement, routine: string, params: seq<JsValue>)

  /** What the database gives back: a row set, or a raised error with the
      vendor code (`err.code`, absent for errors that carry none) and its text. */
  datatype DbOutcome = Rows(rows: seq<JsValue>) | Failure(code: Option<string>, message: string)

  /** The pre-call decision: answer without touching the database, or send
      exactly this one statement. */
  datatype Decision = Reject(response: Response) | Forward(query: Query)

  /** The observable effect of one handler run: the statements sent, in
      order, and the single response written. */
  datatype Trace = Trace(queries: seq<Query>, response: Response)

  /** Runs a decision: a rejection sends nothing and answers with its own
      response; a forwarded statement is sent once and `answer` (the mapping
      of the database's outcome) is written. */
  function Execute(d: Decision, answer: Response): (t: Trace)
    ensures t.queries == [] <==> d.Reject?
    ensures d.Reject? ==> t.response == d.response
    ensures d.Forward? ==> t.queries == [d.query] && t.response == answer
  {
    match d
    case Reject(r) => Trace([], r)
    case Forward(q) => Trace([q], answer)
  }

  /** `result.rows[0]`, which is `undefined` for an empty row set. */
  function FirstRow(rows: seq<JsValue>): (v: JsValue)
    ensures rows == [] ==> v == Undefined
    ensures rows != [] ==> v == rows[0]
  {
    if rows == [] then Undefined else rows[0]
  }
}
