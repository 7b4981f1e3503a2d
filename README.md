# Request-decision layer of a payroll HTTP API

The service is an Express shell in front of a PostgreSQL database in which
all payroll logic lives as stored routines. What is left in the service is
the request-decision layer, and that is what this project models:

- **pre-call validation** in the department and collaborator controllers:
  from the coerced request fields, either answer at once (no database call)
  or send exactly one statement with its parameters in a fixed order;
- **result and error-code mapping**: a row set or a vendor error code
  (`45000`, `P0001`, `P0002`, `P0003`, anything else) becomes a status and a body;
- **parameter defaulting** in the report controller and the date formatter;
- the **bearer-token gate** middleware: 401, 403, or forward exactly once.

Layout, one module per source file or shared concept:

- `options.dfy` (`Options`): the optional value.
- `js.dfy` (`Js`): JavaScript values, truthiness (`undefined`, `null`,
  `false`, `NaN`, `0`, `""` are falsy), `String(v)`, `parseInt` with and
  without a radix, `parseFloat` (which also reads `Infinity` and
  `-Infinity`), and the four coercion idioms the handlers use:
  `v ? parseInt(v, 10) : null` or `v ? parseInt(v) : null` (`IntOrNull`,
  with the radix as an argument), `v !== undefined ? parseInt(v, 10) : null`
  (`IntUnlessUndefined`), `v !== undefined ? parseFloat(v) : null`
  (`FloatUnlessUndefined`) and `v ? parseInt(v, 10) : k` (`IntOrDefault`).
  Comparisons with NaN are false, and the infinities compare by sign
  (`AtMost`, `Below`, `Above`).
- `text.dfy` (`Text`): `String.prototype.split` on one character, proved
  to be the unique separator-free decomposition that joins back to the text.
- `http.dfy` (`Http`): responses, statements, database outcomes, the
  pre-call `Decision` (`Reject(response)` or `Forward(query)`) and the
  `Trace` of one handler run (the statements sent, the one response).
- `department.dfy`, `collaborator.dfy`, `report.dfy`: the controllers. Each
  handler is a coercion, a decision function, an answer function mapping the
  database outcome, and a handler function that runs them with `Execute`.
- `auth.dfy` (`AuthMiddleware`): token extraction, the gate as a decision
  function, and the middleware itself as a method of the class `Exchange`,
  which holds what the middleware changes: `req.user`, the responses written,
  the number of `next()` calls and the tokens handed to `jwt.verify`.

Foreign calls are parameters. `Js.Builtins` carries the runtime's digit
conversions (`parseIntText` for radix 10 or no radix, `parseFloatText`, on a
text that holds a digit; a text without any digit is NaN, and a spelled-out
infinity is read by `parseFloat`, in the model itself), the text of a finite
number (`numberText`), the message of the TypeError that `String(v)` throws
(`conversionError`) and `new Date(v).toISOString()` (`dateIso`, None when
it throws). `jwt.verify` with the configured secret is `verify`, None when it
throws. The database is the outcome `Rows(rows)` or `Failure(code, message)`,
consulted only when a statement is forwarded.

Where the source's own doc comments and its code disagree, the model follows
the code:

- The doc comment of `setSalary` (src/controllers/department.controller.ts:140-149)
  promises a 400 when the salary is invalid; the code forwards a non-numeric
  salary or contribution as NaN, because `NaN <= 0`, `NaN < 0` and `NaN > 5`
  are all false (`Department.SetSalaryForwardsNaN`).
- The doc comment of `createDepartment` (src/controllers/department.controller.ts:105)
  says 409 for a missing name; the code answers 400.

Further facts of the code that the model keeps:

- In the gate, the `if (token)` guard keeps the 401 path away from `verify`
  and `next` (`AuthMiddleware.Exchange.Authenticate`); the only double answer
  is a 403 after forwarding when `next()` itself throws.
- `String(v)` throws on an object with its own `toString` key and on an
  array holding one. A JSON body can carry such an object, and so can a query
  string read by the extended query parser (`qs` with prototype keys allowed,
  the default of Express 4): `?cardID[toString]=1`. The simple query parser
  (the default of Express 5) never builds one; the model covers both, since
  under the simple parser `StringThrows` is never true of a query field. The
  conversion always happens inside the handler's `try`, so such a field is
  the catch's answer with nothing sent: 500 in `setSalary` and
  `setEmployeeSalary` (`Department.ToStringKeyIsServerError`), in
  `getDepartments`, `getEmployeeSalary` and `getEmployeeName`
  (`Department.ToStringKeyQueryIsCaught`) and in both reports
  (`Report.ToStringKeyFilterIsCaught`); 400 "El empleado no existe." in
  `getCollaboratorName` (`Collaborator.ToStringKeyCardIsCaught`).
- `getReportTotal` answers its 500 with the detail report's text "Error getting
  report detail".
- `getDepartments`, `getEmployeeSalary`, `getEmployeeName` and
  `getCollaboratorName` call `parseInt` without a radix, so a `0x` card or
  department ID is read as hexadecimal; every other handler passes radix 10.

## Model

| member | source | states |
|---|---|---|
| `Js.Truthy` | src/middlewares/auth.middleware.ts:10 | a value is falsy exactly when it is `undefined`, `null`, `false`, `NaN`, `0` or `""` |
| `Js.ToText` | src/controllers/department.controller.ts:288 | `String` of a text is the text; the non-numeric atoms and the infinities spell a name without a digit |
| `Js.OwnToStringThrows` | src/controllers/collaborator.controller.ts:25-27 | an object with its own `toString` key throws in `String`, and so does any array holding it |
| `Js.StringThrows` | src/controllers/department.controller.ts:163-175 | `String(v)` throws only on an object with its own `toString` key or an array holding one, so only on a truthy, defined value |
| `Js.JoinTexts` | src/controllers/department.controller.ts:288 | an array's text: empty for no element or one null element, the element's own text for one text, two texts joined by a comma, and a comma whenever there are two elements or more (a repeated query key, as read at src/controllers/department.controller.ts:26) |
| `Js.IntOrNull` | src/controllers/department.controller.ts:163-165 | a falsy raw field (absent, empty, 0) is null, any other is `parseInt` of it with the radix given (radix 10 here, none at src/controllers/department.controller.ts:25-27) |
| `Js.IntUnlessUndefined` | src/controllers/department.controller.ts:168-171 | only an absent field is null; an empty text is parsed |
| `Js.FloatUnlessUndefined` | src/controllers/department.controller.ts:166-167 | only an absent field is null; otherwise `parseFloat` of it |
| `Js.IntOrDefault` | src/controllers/report.controller.ts:37-38 | a falsy field gives the default, any other is parsed |
| `Js.ParseInt` | src/controllers/department.controller.ts:163-165 | a value whose text holds no digit parses to NaN, with or without a radix |
| `Js.TrimStart` | src/controllers/department.controller.ts:166-167 | the white space `parseFloat` skips: the result is a suffix, starts with no white space, and only white space was removed |
| `Js.InfinityPrefix` | src/controllers/department.controller.ts:166-167 | a text starting `-Infinity` is negative infinity, one starting `Infinity` or `+Infinity` positive infinity, any other none |
| `Js.ParseFloat` | src/controllers/department.controller.ts:166-167 | after leading white space a spelled-out infinity is that infinity; otherwise a value whose text holds no digit parses to NaN |
| `Js.ParseFloatNegativeInfinity` | src/controllers/department.controller.ts:166-167 | `parseFloat("-Infinity")` is negative infinity |
| `Js.ParseFloatPositiveInfinity` | src/controllers/department.controller.ts:173-175 | `parseFloat("Infinity")` is positive infinity |
| `Js.AtMost` | src/controllers/department.controller.ts:179 | `x <= k` holds exactly when `x` is not NaN and `x > k` fails |
| `Js.Below` | src/controllers/department.controller.ts:183 | `x < k` holds exactly when `x <= k` holds and `x` is not `k` |
| `Js.Above` | src/controllers/department.controller.ts:183 | `x > k` is false for NaN and negative infinity, true for positive infinity, the real comparison otherwise |
| `Js.Param` | src/controllers/report.controller.ts:33-36 | an absent coerced number is bound as null, a present one as itself |
| `Js.Present` | src/controllers/department.controller.ts:31 | `!x` on a coerced number (also at src/controllers/department.controller.ts:72, :177, :255, :257 and :373, and src/controllers/collaborator.controller.ts:31): false exactly for a present number that is neither NaN nor 0, an infinity included, so 0, NaN and null are missing |
| `Js.ParseUndefined` | src/controllers/department.controller.ts:369-371 | `parseInt(undefined)` and `parseFloat(undefined)` are NaN |
| `Text.Split` | src/middlewares/auth.middleware.ts:8 | a split has at least one piece |
| `Text.Field` | src/middlewares/auth.middleware.ts:8 | `pieces[i]` is defined exactly below the length and is that piece |
| `Text.SplitPiecesFree` | src/middlewares/auth.middleware.ts:8 | no piece contains the separator |
| `Text.JoinSplit` | src/middlewares/auth.middleware.ts:8 | joining the pieces with the separator restores the text |
| `Text.SplitUnique` | src/middlewares/auth.middleware.ts:8 | every separator-free decomposition that joins to a text is its split |
| `Text.NoSeparatorSplit` | src/middlewares/auth.middleware.ts:8 | a text without the separator is its own single piece |
| `Text.SeparatorSplits` | src/middlewares/auth.middleware.ts:8 | a split has more than one piece exactly when the text holds the separator |
| `Text.SplitAfterPrefix` | src/middlewares/auth.middleware.ts:8 | a separator-free prefix before the first separator is the first piece, the rest splits on |
| `Text.SplitFirstPiece` | src/utils/date.util.ts:5 | the first piece is the longest separator-free prefix |
| `Http.Execute` | src/controllers/department.controller.ts:72-86 | a rejection sends no statement and answers its own response; a forwarded statement is sent exactly once and the mapped outcome answered |
| `Http.FirstRow` | src/controllers/collaborator.controller.ts:33 | `rows[0]` is the first row, `undefined` for no rows |
| `Department.DepartmentsDecision` | src/controllers/department.controller.ts:25-35 | always one `getdepartamentos` select, with the card ID (parsed without a radix) if present and no parameter otherwise |
| `Department.DepartmentsAnswer` | src/controllers/department.controller.ts:37-41 | rows are 200 as sent; any error is 500 |
| `Department.GetDepartments` | src/controllers/department.controller.ts:23-42 | a card ID that throws in `String` is the 500 "Error getting departments" with no query; otherwise exactly one `getdepartamentos` query; 200 exactly when it returns rows and nothing threw, 500 otherwise |
| `Department.EmployeeSalaryDecision` | src/controllers/department.controller.ts:65-78 | the lookup is sent iff both IDs are present (0 and NaN missing), with `[cardID, departmentID]` parsed without a radix; otherwise 400 |
| `Department.EmployeeSalaryAnswer` | src/controllers/department.controller.ts:79-90 | no row is 404, otherwise 200 with the first row only; any error 500 |
| `Department.GetEmployeeSalary` | src/controllers/department.controller.ts:63-91 | either ID throwing in `String` is the 500 "Error getting salary data" with no query; otherwise no query exactly when the answer is 400; at most one query; answers only 200/400/404/500 |
| `Department.CreateDecision` | src/controllers/department.controller.ts:113-120 | the call is sent iff the name is truthy, with the raw name; otherwise 400 |
| `Department.CreateAnswer` | src/controllers/department.controller.ts:121-132 | success 201; an error is 409 exactly for code 45000, otherwise 500 with the driver's text |
| `Department.CreateDepartment` | src/controllers/department.controller.ts:111-133 | answers only 201/400/409/500, and makes no call exactly when it answers 400 |
| `Department.CoerceSalary` | src/controllers/department.controller.ts:155-175 | no coercion exactly when one of the four converted fields throws; otherwise department ID null when falsy, salary, children and contribution null only when absent, `hasSpouse` as sent |
| `Department.SalaryBodyThrows` | src/controllers/department.controller.ts:163-175 | the body throws in its coercion exactly when one of the four converted fields does |
| `Department.SalaryRangeCheck` | src/controllers/department.controller.ts:177-188 | passes iff department present, salary absent, NaN or positive, contribution absent, NaN or in [0,5]; the first failure in that order is the one reported |
| `Department.DepartmentSalaryParams` | src/controllers/department.controller.ts:191-197 | exactly `[departmentID, salary, children, hasSpouse, contribution]`, `hasSpouse` unchanged |
| `Department.SetSalaryDecision` | src/controllers/department.controller.ts:177-198 | a failed check rejects with its message; otherwise the one call with the five parameters |
| `Department.SetSalaryAnswer` | src/controllers/department.controller.ts:199-208 | success 200; every error 500 whatever its code |
| `Department.SetSalary` | src/controllers/department.controller.ts:153-209 | a throwing coercion is the catch's 500 with no call; otherwise no call exactly when 400; a call is the one `asignarSalarioDepartamento` statement on the coerced fields, after which 500 exactly on a database error |
| `Department.ToStringKeyIsServerError` | src/controllers/department.controller.ts:163-175 | a department ID or salary sent as an object with its own `toString` key is 500 "Error al asignar salario al departamento" with no call; in `setEmployeeSalary` a contribution array holding such an object sends no call |
| `Department.NegativeInfiniteSalaryRejected` | src/controllers/department.controller.ts:177-181 | salary `-Infinity` (with contribution `Infinity`) is 400 "El salario debe ser mayor a 0" with no call |
| `Department.InfiniteContributionRejected` | src/controllers/department.controller.ts:179-187 | contribution `Infinity` is 400 for the contribution range with no call |
| `Department.PositiveInfiniteSalaryForwarded` | src/controllers/department.controller.ts:177-198 | salary `Infinity` passes the checks and is forwarded as positive infinity |
| `Department.SetSalaryForwardsNaN` | src/controllers/department.controller.ts:177-198 | NaN salary and contribution pass the checks and are forwarded as NaN |
| `Department.ContributionBoundsInclusive` | src/controllers/department.controller.ts:181-187 | contributions 0 and 5 are accepted; an absent salary is forwarded as null |
| `Department.EmployeeSalaryParams` | src/controllers/department.controller.ts:271-278 | six parameters: the card ID, then the department salary parameters |
| `Department.SetEmployeeSalaryDecision` | src/controllers/department.controller.ts:255-279 | a missing card ID is reported first, whatever else is wrong; then the department checks in order; otherwise the one call |
| `Department.NotInDepartment` | src/controllers/department.controller.ts:285-290 | status 400, with `String(cardID)` interpolated into the message, a text verbatim |
| `Department.SetEmployeeSalaryAnswer` | src/controllers/department.controller.ts:280-296 | an error is 400 exactly for P0001 (message naming the raw card ID) and 500 for every other code |
| `Department.SetEmployeeSalary` | src/controllers/department.controller.ts:229-297 | a throwing card ID or coercion is the catch's 500 with the error text and no call; otherwise no call implies 400; at most one call; answers only 200/400/500 |
| `Department.InsertEmployeesDecision` | src/controllers/department.controller.ts:333-345 | the call is sent iff the raw department ID is truthy and `cardIDs` a non-empty array, both passed as sent; otherwise 400 |
| `Department.InsertEmployeesAnswer` | src/controllers/department.controller.ts:342-363 | P0001, P0002, P0003 each give their own 400; every other code 500 |
| `Department.InsertEmployeesIntoDepartment` | src/controllers/department.controller.ts:327-365 | at most one call; without a call the answer is the missing-field 400 |
| `Department.MembershipAnswersDistinct` | src/controllers/department.controller.ts:344-359 | the three membership errors and the missing-field answer are pairwise different |
| `Department.EmployeeNameCard` | src/controllers/department.controller.ts:369-371 | null iff `IDCard` is falsy, otherwise `parseInt` of `cardID` without a radix |
| `Department.EmployeeNameCardIntended` | src/controllers/department.controller.ts:369-371 | the intended coercion: null iff `IDCard` is falsy, otherwise `parseInt` of `IDCard` itself without a radix |
| `Department.EmployeeNameDecision` | src/controllers/department.controller.ts:373-378 | the lookup is sent iff the card number is present; otherwise 400 |
| `Department.EmployeeNameAnswer` | src/controllers/department.controller.ts:379-388 | no row 404, otherwise 200 with the first row; any error 500 |
| `Department.GetEmployeeName` | src/controllers/department.controller.ts:367-389 | a falsy `IDCard` is 400 with no query; past that guard a `cardID` throwing in `String` is the 500 "Error getting employee name" with no query; otherwise no query exactly when 400; answers only 200/400/404/500 |
| `Department.GetEmployeeNameIntended` | src/controllers/department.controller.ts:367-389 | the intended handler: the same guarantees, with the throw and the parse both on `IDCard` |
| `Department.GetEmployeeNameIgnoresIDCard` | src/controllers/department.controller.ts:369-374 | a request without `cardID` is 400 with no query, whatever `IDCard` holds |
| `Department.IDCardOnlyRequest` | src/controllers/department.controller.ts:369-378 | `?IDCard=123` is 400 as written, a lookup of 123 as intended |
| `Department.GetEmployeeNameIntendedUsesIDCard` | src/controllers/department.controller.ts:369-388 | as intended, an `IDCard` throwing in `String` is the 500, a present one is looked up by its own value, otherwise 400 |
| `Department.ToStringKeyQueryIsCaught` | src/controllers/department.controller.ts:23-42 | an own-`toString` card ID in `getDepartments`, department ID in `getEmployeeSalary` (src/controllers/department.controller.ts:63-91) or card ID in `getEmployeeName` (src/controllers/department.controller.ts:367-389) is each handler's 500 with no query |
| `Department.GetEmployeeNameAgreesOnSameValue` | src/controllers/department.controller.ts:369-371 | written and intended handlers agree when both fields carry the same value |
| `Collaborator.CollaboratorDecision` | src/controllers/collaborator.controller.ts:25-37 | the lookup `[cardID]`, parsed without a radix, is sent iff the card ID is present (absent, 0, NaN are 400 "Debe enviar una cédula.") |
| `Collaborator.CollaboratorAnswer` | src/controllers/collaborator.controller.ts:33-43 | success is 200 with the first row even for no rows; any error is 400 "El empleado no existe." |
| `Collaborator.GetCollaboratorName` | src/controllers/collaborator.controller.ts:23-45 | never 500; at most one query; a card ID throwing in `String` is the catch's 400 "El empleado no existe." with no query; otherwise no query exactly when the card ID is missing |
| `Collaborator.ToStringKeyCardIsCaught` | src/controllers/collaborator.controller.ts:39-43 | an own-`toString` card ID is answered "El empleado no existe." with no query |
| `Collaborator.CollaboratorLooksUpParsedText` | src/controllers/collaborator.controller.ts:25-37 | a card ID text holding a digit is looked up exactly when `parseInt` without a radix reads it as non-zero and non-NaN, under that number; otherwise 400 |
| `Collaborator.HexCardLookedUp` | src/controllers/collaborator.controller.ts:25-27 | `?cardID=0x1A` looks up card 26, as `parseInt` without a radix reads it |
| `Report.FormatDate` | src/utils/date.util.ts:1-6 | a falsy date is null; otherwise it throws exactly when `new Date(v)` finds no primitive or `toISOString` throws |
| `Report.FormatDateDay` | src/utils/date.util.ts:5 | with an ISO text, a date throws only when `new Date(v)` finds no primitive; otherwise the formatted date is the longest `T`-free prefix of the ISO text |
| `Report.ReportAnswer` | src/controllers/report.controller.ts:52-56 | rows are 200 as sent; any error 500 |
| `Report.DetailDecision` | src/controllers/report.controller.ts:28-50 | only an unformattable date or a field throwing in `String` stops the query (500); otherwise six parameters, card and department null when falsy, offset 0 and limit 100 by default |
| `Report.TotalDecision` | src/controllers/report.controller.ts:62-74 | only an unformattable date or a field throwing in `String` stops the query; otherwise exactly four parameters, no pagination |
| `Report.GetReportDetail` | src/controllers/report.controller.ts:26-57 | at most one `getquincenas` query; without one the answer is the 500; answers only 200/500, 200 exactly on rows |
| `Report.GetReportTotal` | src/controllers/report.controller.ts:60-81 | at most one `getquincenastotal` query; without one the answer is the 500; answers only 200/500, 200 exactly on rows |
| `Report.DetailAlwaysQueries` | src/controllers/report.controller.ts:26-57 | with formattable dates, exactly one query unless a field throws in `String`; 200 on rows, 500 on error or throw |
| `Report.TotalAlwaysQueries` | src/controllers/report.controller.ts:60-81 | with formattable dates, exactly one query unless a field throws in `String`; 200 on rows, 500 on error or throw |
| `Report.ToStringKeyFilterIsCaught` | src/controllers/report.controller.ts:33-34 | an own-`toString` `IDCard` is the 500 "Error getting report detail" with no query in both reports (also src/controllers/report.controller.ts:66) |
| `AuthMiddleware.Token` | src/middlewares/auth.middleware.ts:8 | no header gives no token, an empty header the empty token; a non-empty token holds no space and comes from a header that holds one |
| `AuthMiddleware.TokenPresent` | src/middlewares/auth.middleware.ts:10-15 | `if (token)`: exactly JavaScript truthiness of `undefined` or the token text |
| `AuthMiddleware.TokenIsSecondField` | src/middlewares/auth.middleware.ts:8 | whatever the first word, the token is the space-free run after the first space |
| `AuthMiddleware.NoSpaceNoToken` | src/middlewares/auth.middleware.ts:8-10 | a header with no space has no token |
| `AuthMiddleware.DoubleSpaceNoToken` | src/middlewares/auth.middleware.ts:8-10 | a double space after the first word gives an empty, hence missing, token |
| `AuthMiddleware.Gate` | src/middlewares/auth.middleware.ts:10-22 | 401 iff no token; forward iff a token that verifies, with its claims; 403 otherwise |
| `AuthMiddleware.BearerHeaderVerified` | src/middlewares/auth.middleware.ts:8-18 | `Bearer <token>` with a verifying token is forwarded with the claims |
| `AuthMiddleware.Exchange.Authenticate` | src/middlewares/auth.middleware.ts:6-23 | 401: written, no `next`, no `verify`; 403: written, no `next`; forward: `req.user` set, `next` once, nothing written; exactly one of these unless `next` throws |

## Left out

- Stored routines, the connection pool, the health check and the SQL text
  (casts such as `$1::SMALLINT` are not modelled; a statement is its kind,
  routine name and positional parameters).
- The login and registration controller (bcrypt hashing and token signing
  are foreign) and the fortnight controller (it relies on a timestamp
  formatter that is not part of this model).
- Routing and wiring, CORS, environment loading and the secret's literal
  fallback; which routes sit behind the gate.
- `console.error` logging.
- JavaScript's digit conversion and number formatting are oracles in
  `Js.Builtins`; `-0` is not told apart from `0`, and NaN and the infinities
  are not modelled as JSON numbers (where `JSON.stringify` writes `null`)
  beyond their truthiness.
- Errors thrown by `res.json` itself, and a `pool.query` that returns no
  result object (the `!result` tests): the driver always returns one.
- A request without a JSON body under Express 5, where `req.body` stays
  undefined and the destructuring throws before any check, is not modelled;
  the body handlers take the parsed object. Under Express 4 such a request
  has `req.body = {}`, which is the body with every field `undefined`.
- Concurrency: each request is modelled on its own; the event loop and
  interleaving are not.
- `Js.ParseInt`: does not state that a parsed integer is whole; the digit
  conversion is an oracle.

## Findings

| source | as written | input that shows it | evidently intended | confidence | as-written member | corrected member |
|---|---|---|---|---|---|---|
| src/controllers/department.controller.ts:369-371 | the guard tests `req.query.IDCard` but the value parsed is `req.query.cardID` | `GET /department/employee/name?IDCard=123` is answered 400 "IDCard is required" and never queries | parse `IDCard` itself | high, not executed | `Department.GetEmployeeNameIgnoresIDCard` | `Department.GetEmployeeNameIntendedUsesIDCard` |
