/** The department controller: listing departments, reading an employee's
    salary data, creating a department, assigning a salary to a department
    or to one employee, adding employees to a department, and reading an
    employee's name. Each handler is split in three: the coercion of the
    request fields, the pre-call decision, and the mapping of the database's
    outcome to a response. */
module Department {

  import opened Options
  import opened Js
  import opened Http

  // ---------------------------------------------------------------------
  // getDepartments

  /** `GET /department`: a present card ID selects the departments of that
      collaborator, otherwise all departments are selected. The card ID is
      parsed by `parseInt` without a radix. */
  function DepartmentsDecision(cardID: JsValue, rt: Builtins): (d: Decision)
    ensures d.Forward? && d.query.statement == Select && d.query.routine == "getdepartamentos"
    ensures Present(IntOrNull(cardID, Unspecified, rt)) ==> d.query.params == [Param(IntOrNull(cardID, Unspecified, rt))]
    ensures !Present(IntOrNull(cardID, Unspecified, rt)) ==> d.query.params == []
  {
    var card := IntOrNull(cardID, Unspecified, rt);
    if Present(card) then Forward(Query(Select, "getdepartamentos", [Param(card)]))
    else Forward(Query(Select, "getdepartamentos", []))
  }

  function DepartmentsAnswer(db: DbOutcome): (r: Response)
    ensures db.Rows? ==> r == Response(200, Json(Array(db.rows)))
    ensures db.Failure? ==> r == Response(500, Plain("Error getting departments"))
  {
    match db
    case Rows(rows) => Response(200, Json(Array(rows)))
    case Failure(_, _) => Response(500, Plain("Error getting departments"))
  }

  /** A card ID on which `String` throws is the catch's 500 before any
      selection; otherwise exactly one selection is sent, and the answer is
      200 with all rows when it succeeds and 500 otherwise. */
  function GetDepartments(cardID: JsValue, rt: Builtins, db: DbOutcome): (t: Trace)
    ensures StringThrows(cardID) ==> t == Trace([], Response(500, Plain("Error getting departments")))
    ensures !StringThrows(cardID) ==> |t.queries| == 1 && t.queries[0].routine == "getdepartamentos"
    ensures t.response.status == 200 <==> !StringThrows(cardID) && db.Rows?
    ensures t.response.status in {200, 500}
  {
    if StringThrows(cardID) then Trace([], DepartmentsAnswer(Failure(None, rt.conversionError)))
    else Execute(DepartmentsDecision(cardID, rt), DepartmentsAnswer(db))
  }

  // ---------------------------------------------------------------------
  // getEmployeeSalary

  const CardAndDepartmentRequired := Response(400, Message("cardID and departmentID are required"))
  const SalaryDataNotFound := Response(404, Message("No salary data found for this employee and department"))

  /** `GET /department/employee`: both the card ID and the department ID
      must be present (0 and NaN count as missing) before the lookup. Both
      are parsed by `parseInt` without a radix. */
  function EmployeeSalaryDecision(cardID: JsValue, departmentID: JsValue, rt: Builtins): (d: Decision)
    ensures d.Forward? <==> Present(IntOrNull(cardID, Unspecified, rt))
                            && Present(IntOrNull(departmentID, Unspecified, rt))
    ensures d.Reject? ==> d.response == CardAndDepartmentRequired
    ensures d.Forward? ==> d.query == Query(Select, "obtenerdatosalarialcolaborador",
                                            [Param(IntOrNull(cardID, Unspecified, rt)),
                                             Param(IntOrNull(departmentID, Unspecified, rt))])
  {
    var card := IntOrNull(cardID, Unspecified, rt);
    var department := IntOrNull(departmentID, Unspecified, rt);
    if !Present(card) || !Present(department) then Reject(CardAndDepartmentRequired)
    else Forward(Query(Select, "obtenerdatosalarialcolaborador", [Param(card), Param(department)]))
  }

  /** A keyed lookup: no row is 404, otherwise only the first row is sent. */
  function EmployeeSalaryAnswer(db: DbOutcome): (r: Response)
    ensures db.Rows? && db.rows == [] ==> r == SalaryDataNotFound
    ensures db.Rows? && db.rows != [] ==> r == Response(200, Json(db.rows[0]))
    ensures db.Failure? ==> r == Response(500, Plain("Error getting salary data"))
  {
    match db
    case Rows(rows) => if |rows| == 0 then SalaryDataNotFound else Response(200, Json(rows[0]))
    case Failure(_, _) => Response(500, Plain("Error getting salary data"))
  }

  /** Either ID throwing in `String` is the catch's 500 with no lookup;
      otherwise no lookup exactly when 400. */
  function GetEmployeeSalary(cardID: JsValue, departmentID: JsValue, rt: Builtins, db: DbOutcome): (t: Trace)
    ensures StringThrows(cardID) || StringThrows(departmentID) ==>
              t == Trace([], Response(500, Plain("Error getting salary data")))
    ensures !StringThrows(cardID) && !StringThrows(departmentID) ==> (t.queries == [] <==> t.response.status == 400)
    ensures |t.queries| <= 1
    ensures t.response.status in {200, 400, 404, 500}
  {
    if StringThrows(cardID) || StringThrows(departmentID) then
      Trace([], EmployeeSalaryAnswer(Failure(None, rt.conversionError)))
    else Execute(EmployeeSalaryDecision(cardID, departmentID, rt), EmployeeSalaryAnswer(db))
  }

  // ---------------------------------------------------------------------
  // createDepartment

  const NameRequired := Response(400, Message("El nombre del departamento es requerido"))

  /** `POST /department`: a missing or empty name is rejected; otherwise the
      raw name is passed to `insertdepartamento`. */
  function CreateDecision(departmentName: JsValue): (d: Decision)
    ensures d.Forward? <==> Truthy(departmentName)
    ensures d.Reject? ==> d.response == NameRequired
    ensures d.Forward? ==> d.query == Query(Call, "insertdepartamento", [departmentName])
  {
    if !Truthy(departmentName) then Reject(NameRequired)
    else Forward(Query(Call, "insertdepartamento", [departmentName]))
  }

  /** Success is 201; vendor code 45000 (duplicate name) is 409; anything else 500. */
  function CreateAnswer(db: DbOutcome): (r: Response)
    ensures db.Rows? ==> r.status == 201
    ensures db.Failure? ==> (r.status == 409 <==> db.code == Some("45000"))
    ensures db.Failure? && db.code != Some("45000") ==>
              r == Response(500, MessageWithError("Error al crear el departamento", db.message))
  {
    match db
    case Rows(_) => Response(201, Message("Departamento creado correctamente"))
    case Failure(code, text) =>
      if code == Some("45000") then Response(409, Message("El nombre del departamento ya existe"))
      else Response(500, MessageWithError("Error al crear el departamento", text))
  }

  function CreateDepartment(departmentName: JsValue, db: DbOutcome): (t: Trace)
    ensures t.queries == [] <==> t.response.status == 400
    ensures t.response.status in {201, 400, 409, 500}
  {
    Execute(CreateDecision(departmentName), CreateAnswer(db))
  }

  // ---------------------------------------------------------------------
  // Salary assignment, shared by setSalary and setEmployeeSalary

  /** The body of a salary assignment, as sent. */
  datatype SalaryBody = SalaryBody(
    departmentID: JsValue,
    salary: JsValue,
    childrenQuantity: JsValue,
    hasSpouse: JsValue,
    contributionPercentage: JsValue)

  /** The body after coercion: the department ID is null when falsy, the
      other numbers are null only when absent, `hasSpouse` is kept as sent. */
  datatype SalaryInput = SalaryInput(
    department: Option<JsNum>,
    salary: Option<JsNum>,
    children: Option<JsNum>,
    hasSpouse: JsValue,
    contribution: Option<JsNum>)

  /** Whether converting one of the four numeric body fields throws: each of
      them reaches `parseInt` or `parseFloat` whenever its `String` throws.
      `hasSpouse` is never converted. */
  predicate SalaryBodyThrows(b: SalaryBody)
  {
    StringThrows(b.departmentID) || StringThrows(b.salary)
    || StringThrows(b.childrenQuantity) || StringThrows(b.contributionPercentage)
  }

  /** The four coercions at the top of the handler, None when one of them
      throws (the handler then goes straight to its `catch`). */
  function CoerceSalary(b: SalaryBody, rt: Builtins): (x: Option<SalaryInput>)
    ensures x.None? <==> SalaryBodyThrows(b)
    ensures x.Some? ==> x.value.hasSpouse == b.hasSpouse
    ensures x.Some? ==> x.value.department == IntOrNull(b.departmentID, Decimal, rt)
    ensures x.Some? ==> x.value.salary == FloatUnlessUndefined(b.salary, rt)
    ensures x.Some? ==> x.value.children == IntUnlessUndefined(b.childrenQuantity, rt)
    ensures x.Some? ==> x.value.contribution == FloatUnlessUndefined(b.contributionPercentage, rt)
  {
    if SalaryBodyThrows(b) then None
    else
      Some(SalaryInput(
        IntOrNull(b.departmentID, Decimal, rt),
        FloatUnlessUndefined(b.salary, rt),
        IntUnlessUndefined(b.childrenQuantity, rt),
        b.hasSpouse,
        FloatUnlessUndefined(b.contributionPercentage, rt)))
  }

  /** A salary is acceptable when it was not sent, is NaN, or is positive
      (positive infinity included). */
  predicate SalaryAcceptable(salary: Option<JsNum>)
  {
    salary == None || salary == Some(NaN) || salary == Some(Inf(false))
    || (salary.value.Num? && salary.value.r > 0.0)
  }

  /** A contribution percentage is acceptable when it was not sent, is NaN,
      or lies in the closed range from 0 to 5; neither infinity does. */
  predicate ContributionAcceptable(contribution: Option<JsNum>)
  {
    contribution == None || contribution == Some(NaN)
    || (contribution.value.Num? && 0.0 <= contribution.value.r <= 5.0)
  }

  const DepartmentRequired := Response(400, Message("El ID del departamento es requerido"))
  const SalaryNotPositive := Response(400, Message("El salario debe ser mayor a 0"))
  const ContributionOutOfRange :=
    Response(400, Message("La contribución debe ser mayor a 0 y menor o igual a 5"))

  /** The salary checks in their fixed order; None when all of them pass.
      Written as the code tests them: `salary !== null && salary <= 0`, then
      `contribution !== null && (contribution < 0 || contribution > 5)`. */
  function SalaryRangeCheck(x: SalaryInput): (r: Option<Response>)
    ensures r.None? <==> Present(x.department) && SalaryAcceptable(x.salary)
                         && ContributionAcceptable(x.contribution)
    ensures !Present(x.department) ==> r == Some(DepartmentRequired)
    ensures Present(x.department) && !SalaryAcceptable(x.salary) ==> r == Some(SalaryNotPositive)
    ensures (Present(x.department) && SalaryAcceptable(x.salary) && !ContributionAcceptable(x.contribution))
              ==> r == Some(ContributionOutOfRange)
  {
    if !Present(x.department) then Some(DepartmentRequired)
    else if x.salary.Some? && AtMost(x.salary.value, 0.0) then Some(SalaryNotPositive)
    else if x.contribution.Some? && (Below(x.contribution.value, 0.0) || Above(x.contribution.value, 5.0))
    then Some(ContributionOutOfRange)
    else None
  }

  // ---------------------------------------------------------------------
  // setSalary

  /** The five positional parameters of `asignarSalarioDepartamento`. */
  function DepartmentSalaryParams(x: SalaryInput): (ps: seq<JsValue>)
    ensures |ps| == 5
    ensures ps[0] == Param(x.department) && ps[1] == Param(x.salary) && ps[2] == Param(x.children)
    ensures ps[3] == x.hasSpouse && ps[4] == Param(x.contribution)
  {
    [Param(x.department), Param(x.salary), Param(x.children), x.hasSpouse, Param(x.contribution)]
  }

  /** `PATCH /department`: the first failing check is reported and nothing
      is sent; otherwise exactly the one call. */
  function SetSalaryDecision(x: SalaryInput): (d: Decision)
    ensures d.Forward? <==> SalaryRangeCheck(x).None?
    ensures d.Reject? ==> d.response == SalaryRangeCheck(x).value
    ensures d.Forward? ==> d.query == Query(Call, "asignarSalarioDepartamento", DepartmentSalaryParams(x))
  {
    match SalaryRangeCheck(x)
    case Some(r) => Reject(r)
    case None => Forward(Query(Call, "asignarSalarioDepartamento", DepartmentSalaryParams(x)))
  }

  const SalaryAssignmentFailed := Response(500, Message("Error al asignar salario al departamento"))

  /** The `catch`: every error is 500, whatever its code. */
  function SetSalaryAnswer(db: DbOutcome): (r: Response)
    ensures db.Rows? ==> r.status == 200
    ensures db.Failure? ==> r == SalaryAssignmentFailed
  {
    match db
    case Rows(_) => Response(200, Message("Salario asignado correctamente al departamento"))
    case Failure(_, _) => SalaryAssignmentFailed
  }

  /** A conversion that throws is 500 with no call, before any check; otherwise
      no call exactly when 400, and a call is the one statement. */
  function SetSalary(b: SalaryBody, rt: Builtins, db: DbOutcome): (t: Trace)
    ensures SalaryBodyThrows(b) ==> t == Trace([], SalaryAssignmentFailed)
    ensures t.queries == [] <==> t.response.status == 400 || SalaryBodyThrows(b)
    ensures t.queries != [] ==>
              CoerceSalary(b, rt).Some?
              && t.queries == [Query(Call, "asignarSalarioDepartamento", DepartmentSalaryParams(CoerceSalary(b, rt).value))]
    ensures t.queries != [] ==> (t.response.status == 500 <==> db.Failure?)
    ensures t.response.status in {200, 400, 500}
  {
    match CoerceSalary(b, rt)
    case None => Trace([], SetSalaryAnswer(Failure(None, rt.conversionError)))
    case Some(x) => Execute(SetSalaryDecision(x), SetSalaryAnswer(db))
  }

  // ---------------------------------------------------------------------
  // setEmployeeSalary

  const CardRequired := Response(400, Message("La cédula del empleado es requerida"))

  /** The six positional parameters of `asignarsalarioporcedula`. */
  function EmployeeSalaryParams(card: Option<JsNum>, x: SalaryInput): (ps: seq<JsValue>)
    ensures |ps| == 6 && ps[0] == Param(card) && ps[1..] == DepartmentSalaryParams(x)
  {
    [Param(card)] + DepartmentSalaryParams(x)
  }

  /** `PATCH /department/employee?cardID=…`: the card ID is checked first,
      then the same checks as for a department. */
  function SetEmployeeSalaryDecision(card: Option<JsNum>, x: SalaryInput): (d: Decision)
    ensures !Present(card) ==> d == Reject(CardRequired)
    ensures Present(card) ==> (d.Forward? <==> SalaryRangeCheck(x).None?)
    ensures Present(card) && d.Reject? ==> d.response == SalaryRangeCheck(x).value
    ensures d.Forward? ==> d.query == Query(Call, "asignarsalarioporcedula", EmployeeSalaryParams(card, x))
  {
    if !Present(card) then Reject(CardRequired)
    else match SalaryRangeCheck(x)
      case Some(r) => Reject(r)
      case None => Forward(Query(Call, "asignarsalarioporcedula", EmployeeSalaryParams(card, x)))
  }

  /** The 400 message for vendor code P0001 interpolates the raw `cardID`
      query value: a text verbatim, any other value as `String` spells it. */
  function NotInDepartment(cardID: JsValue, rt: Builtins): (r: Response)
    ensures r.status == 400
    ensures cardID.Str? ==>
              r.body == Message("El colaborador con la cédula " + cardID.s + " no esta registrado en el departamento")
    ensures r.body == Message("El colaborador con la cédula " + ToText(cardID, rt) + " no esta registrado en el departamento")
  {
    Response(400, Message("El colaborador con la cédula " + ToText(cardID, rt) + " no esta registrado en el departamento"))
  }

  /** The `catch`: P0001 (the collaborator is not in the department) is 400;
      every other error, a conversion's `TypeError` included, is 500. */
  function SetEmployeeSalaryAnswer(cardID: JsValue, rt: Builtins, db: DbOutcome): (r: Response)
    ensures db.Rows? ==> r.status == 200
    ensures db.Failure? ==> (r.status == 400 <==> db.code == Some("P0001"))
    ensures db.Failure? ==> (r.status == 500 <==> db.code != Some("P0001"))
    ensures db.Failure? && db.code == Some("P0001") ==> r == NotInDepartment(cardID, rt)
  {
    match db
    case Rows(_) => Response(200, Message("Salario asignado correctamente al empleado en el departamento"))
    case Failure(code, text) =>
      if code == Some("P0001") then NotInDepartment(cardID, rt)
      else Response(500, MessageWithError("Error al asignar salario al empleado en el departamento", text))
  }

  /** A card ID or body field whose conversion throws is 500 with the
      `TypeError`'s text and no call; otherwise no call implies 400. */
  function SetEmployeeSalary(cardID: JsValue, b: SalaryBody, rt: Builtins, db: DbOutcome): (t: Trace)
    ensures StringThrows(cardID) || SalaryBodyThrows(b) ==>
              t == Trace([], Response(500, MessageWithError("Error al asignar salario al empleado en el departamento",
                                                            rt.conversionError)))
    ensures |t.queries| <= 1
    ensures !StringThrows(cardID) && !SalaryBodyThrows(b) && t.queries == [] ==> t.response.status == 400
    ensures t.response.status in {200, 400, 500}
  {
    if StringThrows(cardID) then Trace([], SetEmployeeSalaryAnswer(cardID, rt, Failure(None, rt.conversionError)))
    else match CoerceSalary(b, rt)
      case None => Trace([], SetEmployeeSalaryAnswer(cardID, rt, Failure(None, rt.conversionError)))
      case Some(x) =>
        Execute(SetEmployeeSalaryDecision(IntOrNull(cardID, Decimal, rt), x), SetEmployeeSalaryAnswer(cardID, rt, db))
  }

  // ---------------------------------------------------------------------
  // insertEmployeesIntoDepartment

  const MembershipFieldsRequired := Response(400, Plain("Department id or employee list is required"))
  const DepartmentMissing := Response(400, Message("El departamento no existe"))
  const UnknownCard := Response(400, Message("Hay una cédula que no existe."))
  const AlreadyMember := Response(400, Message("Uno de los empleados ya pertenece a ese departamento."))

  /** `PUT /department`: the raw department ID must be truthy and `cardIDs`
      a non-empty array; both are passed on exactly as sent. */
  function InsertEmployeesDecision(departmentID: JsValue, cardIDs: JsValue): (d: Decision)
    ensures d.Forward? <==> Truthy(departmentID) && cardIDs.Array? && |cardIDs.elems| > 0
    ensures d.Reject? ==> d.response == MembershipFieldsRequired
    ensures d.Forward? ==> d.query == Query(Call, "insertEmpleadosDepartamentos", [departmentID, cardIDs])
  {
    if Truthy(departmentID) && cardIDs.Array? && |cardIDs.elems| > 0
    then Forward(Query(Call, "insertEmpleadosDepartamentos", [departmentID, cardIDs]))
    else Reject(MembershipFieldsRequired)
  }

  /** P0001, P0002 and P0003 each map to their own 400; anything else is 500. */
  function InsertEmployeesAnswer(db: DbOutcome): (r: Response)
    ensures db.Rows? ==> r == Response(200, Plain("Employees inserted successfully"))
    ensures db.Failure? && db.code == Some("P0001") ==> r == DepartmentMissing
    ensures db.Failure? && db.code == Some("P0002") ==> r == UnknownCard
    ensures db.Failure? && db.code == Some("P0003") ==> r == AlreadyMember
    ensures db.Failure? ==> (r.status == 400 <==> db.code in {Some("P0001"), Some("P0002"), Some("P0003")})
    ensures db.Failure? && r.status != 400 ==>
              r == Response(500, Plain("Error assigning inserting employees to department"))
  {
    match db
    case Rows(_) => Response(200, Plain("Employees inserted successfully"))
    case Failure(code, _) =>
      if code == Some("P0001") then DepartmentMissing
      else if code == Some("P0002") then UnknownCard
      else if code == Some("P0003") then AlreadyMember
      else Response(500, Plain("Error assigning inserting employees to department"))
  }

  function InsertEmployeesIntoDepartment(departmentID: JsValue, cardIDs: JsValue, db: DbOutcome): (t: Trace)
    ensures |t.queries| <= 1
    ensures t.queries == [] ==> t.response == MembershipFieldsRequired
  {
    Execute(InsertEmployeesDecision(departmentID, cardIDs), InsertEmployeesAnswer(db))
  }

  /** The three membership errors, and the missing-field answer, are told apart. */
  lemma MembershipAnswersDistinct()
    ensures DepartmentMissing != UnknownCard && UnknownCard != AlreadyMember
    ensures DepartmentMissing != AlreadyMember
    ensures MembershipFieldsRequired !in {DepartmentMissing, UnknownCard, AlreadyMember}
  {
  }

  // ---------------------------------------------------------------------
  // getEmployeeName

  const IDCardRequired := Response(400, Message("IDCard is required"))
  const EmployeeNotFound := Response(404, Message("Employee not found"))

  /** `GET /department/employee/name`, as written: the guard tests the
      `IDCard` query field but the value parsed (by `parseInt` without a
      radix) is the `cardID` field. */
  function EmployeeNameCard(idCard: JsValue, cardID: JsValue, rt: Builtins): (card: Option<JsNum>)
    ensures card.None? <==> !Truthy(idCard)
    ensures card.Some? ==> card.value == ParseInt(cardID, Unspecified, rt)
  {
    if Truthy(idCard) then Some(ParseInt(cardID, Unspecified, rt)) else None
  }

  /** The same coercion as evidently intended: `IDCard` is both the guard and
      parsed, which is the `v ? parseInt(v) : null` idiom on `IDCard`. */
  function EmployeeNameCardIntended(idCard: JsValue, rt: Builtins): (card: Option<JsNum>)
    ensures card.None? <==> !Truthy(idCard)
    ensures card.Some? ==> card.value == ParseInt(idCard, Unspecified, rt)
  {
    IntOrNull(idCard, Unspecified, rt)
  }

  /** The lookup once the card number is known: a missing number is 400. */
  function EmployeeNameDecision(card: Option<JsNum>): (d: Decision)
    ensures d.Forward? <==> Present(card)
    ensures d.Reject? ==> d.response == IDCardRequired
    ensures d.Forward? ==> d.query == Query(Select, "getempleadonombre", [Param(card)])
  {
    if !Present(card) then Reject(IDCardRequired)
    else Forward(Query(Select, "getempleadonombre", [Param(card)]))
  }

  function EmployeeNameAnswer(db: DbOutcome): (r: Response)
    ensures db.Rows? && db.rows == [] ==> r == EmployeeNotFound
    ensures db.Rows? && db.rows != [] ==> r == Response(200, Json(db.rows[0]))
    ensures db.Failure? ==> r == Response(500, Plain("Error getting employee name"))
  {
    match db
    case Rows(rows) => if |rows| == 0 then EmployeeNotFound else Response(200, Json(rows[0]))
    case Failure(_, _) => Response(500, Plain("Error getting employee name"))
  }

  const EmployeeNameFailed := Response(500, Plain("Error getting employee name"))

  /** The handler as written: a falsy `IDCard` is 400 without a query; past
      the guard, a `cardID` on which `String` throws is the catch's 500; a
      query is answered 200, 404 or 500. */
  function GetEmployeeName(idCard: JsValue, cardID: JsValue, rt: Builtins, db: DbOutcome): (t: Trace)
    ensures !Truthy(idCard) ==> t == Trace([], IDCardRequired)
    ensures Truthy(idCard) && StringThrows(cardID) ==> t == Trace([], EmployeeNameFailed)
    ensures !(Truthy(idCard) && StringThrows(cardID)) ==> (t.queries == [] <==> t.response.status == 400)
    ensures t.response.status in {200, 400, 404, 500}
  {
    if Truthy(idCard) && StringThrows(cardID) then Trace([], EmployeeNameAnswer(Failure(None, rt.conversionError)))
    else Execute(EmployeeNameDecision(EmployeeNameCard(idCard, cardID, rt)), EmployeeNameAnswer(db))
  }

  /** The handler as evidently intended: the same shape, keyed on `IDCard`. */
  function GetEmployeeNameIntended(idCard: JsValue, rt: Builtins, db: DbOutcome): (t: Trace)
    ensures !Truthy(idCard) ==> t == Trace([], IDCardRequired)
    ensures StringThrows(idCard) ==> t == Trace([], EmployeeNameFailed)
    ensures !StringThrows(idCard) ==> (t.queries == [] <==> t.response.status == 400)
    ensures t.response.status in {200, 400, 404, 500}
  {
    if StringThrows(idCard) then Trace([], EmployeeNameAnswer(Failure(None, rt.conversionError)))
    else Execute(EmployeeNameDecision(EmployeeNameCardIntended(idCard, rt)), EmployeeNameAnswer(db))
  }

  /** As written, a request that carries only `IDCard` is always 400 and
      never queries: the value parsed is the absent `cardID`, i.e. NaN. */
  lemma GetEmployeeNameIgnoresIDCard(idCard: JsValue, rt: Builtins, db: DbOutcome)
    ensures GetEmployeeName(idCard, Undefined, rt, db) == Trace([], IDCardRequired)
  {
    ParseUndefined(Unspecified, rt);
  }

  /** The concrete case: `?IDCard=123` is answered 400 as written, while the
      intended handler looks up card 123. */
  lemma IDCardOnlyRequest(rt: Builtins, db: DbOutcome)
    requires rt.parseIntText("123", Unspecified) == Num(123.0)
    ensures GetEmployeeName(Str("123"), Undefined, rt, db).response == IDCardRequired
    ensures GetEmployeeNameIntended(Str("123"), rt, db).queries
              == [Query(Select, "getempleadonombre", [Number(Num(123.0))])]
  {
    ParseUndefined(Unspecified, rt);
    assert IsDigit("123"[0]);
  }

  /** As intended, a present `IDCard` is looked up by its own value, and the
      404/200/500 mapping of a keyed lookup applies; one on which `String`
      throws is the catch's 500. */
  lemma GetEmployeeNameIntendedUsesIDCard(idCard: JsValue, rt: Builtins, db: DbOutcome)
    ensures var t := GetEmployeeNameIntended(idCard, rt, db);
            if StringThrows(idCard) then t == Trace([], EmployeeNameFailed)
            else if Present(IntOrNull(idCard, Unspecified, rt))
            then t.queries == [Query(Select, "getempleadonombre", [Param(IntOrNull(idCard, Unspecified, rt))])]
                 && t.response == EmployeeNameAnswer(db)
            else t == Trace([], IDCardRequired)
  {
  }

  /** The two coincide whenever the request carries the same value under both names. */
  lemma GetEmployeeNameAgreesOnSameValue(v: JsValue, rt: Builtins, db: DbOutcome)
    ensures GetEmployeeName(v, v, rt, db) == GetEmployeeNameIntended(v, rt, db)
  {
  }

  /** NaN passes both range checks, so an unparsable salary or contribution
      is forwarded to the database as NaN. */
  lemma SetSalaryForwardsNaN(x: SalaryInput)
    requires Present(x.department) && x.salary == Some(NaN) && x.contribution == Some(NaN)
    ensures SetSalaryDecision(x).Forward?
    ensures SetSalaryDecision(x).query.params[1] == Number(NaN)
    ensures SetSalaryDecision(x).query.params[4] == Number(NaN)
  {
  }

  /** Once the coercions are known not to throw, `SetSalary` is the decision
      on the coerced fields. */
  lemma SetSalaryOfCoerced(b: SalaryBody, rt: Builtins, db: DbOutcome, x: SalaryInput)
    requires CoerceSalary(b, rt) == Some(x)
    ensures SetSalary(b, rt, db) == Execute(SetSalaryDecision(x), SetSalaryAnswer(db))
  {
  }

  /** `parseFloat` reads spelled-out infinities: a salary of `-Infinity`
      fails `salary <= 0` before the contribution is looked at. */
  lemma NegativeInfiniteSalaryRejected(rt: Builtins, db: DbOutcome)
    requires rt.parseIntText("1", Decimal) == Num(1.0)
    ensures SetSalary(SalaryBody(Str("1"), Str("-Infinity"), Undefined, Undefined, Str("Infinity")), rt, db)
              == Trace([], SalaryNotPositive)
  {
    var b := SalaryBody(Str("1"), Str("-Infinity"), Undefined, Undefined, Str("Infinity"));
    var x := SalaryInput(Some(Num(1.0)), Some(Inf(true)), None, Undefined, Some(Inf(false)));
    assert CoerceSalary(b, rt) == Some(x) by {
      assert IntOrNull(Str("1"), Decimal, rt) == Some(Num(1.0)) by { assert IsDigit("1"[0]); }
      assert FloatUnlessUndefined(Str("-Infinity"), rt) == Some(Inf(true)) by { ParseFloatNegativeInfinity(rt); }
      assert FloatUnlessUndefined(Str("Infinity"), rt) == Some(Inf(false)) by { ParseFloatPositiveInfinity(rt); }
      assert !SalaryBodyThrows(b);
    }
    SetSalaryOfCoerced(b, rt, db, x);
    assert SetSalaryDecision(x) == Reject(SalaryNotPositive) by {
      assert SalaryRangeCheck(x) == Some(SalaryNotPositive);
    }
  }

  /** A contribution of `Infinity` fails `contribution > 5`. */
  lemma InfiniteContributionRejected(rt: Builtins, db: DbOutcome)
    requires rt.parseIntText("1", Decimal) == Num(1.0)
    ensures SetSalary(SalaryBody(Str("1"), Undefined, Undefined, Undefined, Str("Infinity")), rt, db)
              == Trace([], ContributionOutOfRange)
  {
    var b := SalaryBody(Str("1"), Undefined, Undefined, Undefined, Str("Infinity"));
    var x := SalaryInput(Some(Num(1.0)), None, None, Undefined, Some(Inf(false)));
    assert CoerceSalary(b, rt) == Some(x) by {
      assert IntOrNull(Str("1"), Decimal, rt) == Some(Num(1.0)) by { assert IsDigit("1"[0]); }
      assert FloatUnlessUndefined(Str("Infinity"), rt) == Some(Inf(false)) by { ParseFloatPositiveInfinity(rt); }
      assert !SalaryBodyThrows(b);
    }
    SetSalaryOfCoerced(b, rt, db, x);
    assert SetSalaryDecision(x) == Reject(ContributionOutOfRange) by {
      assert SalaryRangeCheck(x) == Some(ContributionOutOfRange);
    }
  }

  /** A salary of `Infinity` is positive, passes, and is forwarded as such. */
  lemma PositiveInfiniteSalaryForwarded(rt: Builtins, db: DbOutcome)
    requires rt.parseIntText("1", Decimal) == Num(1.0)
    ensures SetSalary(SalaryBody(Str("1"), Str("Infinity"), Undefined, Undefined, Undefined), rt, db).queries
              == [Query(Call, "asignarSalarioDepartamento",
                        [Number(Num(1.0)), Number(Inf(false)), Null, Undefined, Null])]
  {
    var b := SalaryBody(Str("1"), Str("Infinity"), Undefined, Undefined, Undefined);
    var x := SalaryInput(Some(Num(1.0)), Some(Inf(false)), None, Undefined, None);
    assert CoerceSalary(b, rt) == Some(x) by {
      assert IntOrNull(Str("1"), Decimal, rt) == Some(Num(1.0)) by { assert IsDigit("1"[0]); }
      assert FloatUnlessUndefined(Str("Infinity"), rt) == Some(Inf(false)) by { ParseFloatPositiveInfinity(rt); }
      assert !SalaryBodyThrows(b);
    }
    SetSalaryOfCoerced(b, rt, db, x);
    assert SetSalaryDecision(x).query == Query(Call, "asignarSalarioDepartamento", DepartmentSalaryParams(x)) by {
      assert SalaryRangeCheck(x) == None;
    }
    assert DepartmentSalaryParams(x) == [Number(Num(1.0)), Number(Inf(false)), Null, Undefined, Null];
  }

  /** A body field that is an object with its own `toString` key makes the
      conversion throw: the answer is the catch-all 500 with no call, even
      where the checks would have answered 400 or forwarded the call. */
  lemma ToStringKeyIsServerError(rt: Builtins, db: DbOutcome, k: JsValue)
    ensures SetSalary(SalaryBody(Object([("toString", k)]), Undefined, Undefined, Undefined, Undefined), rt, db)
              == Trace([], SalaryAssignmentFailed)
    ensures SetSalary(SalaryBody(Str("1"), Object([("toString", k)]), Undefined, Undefined, Undefined), rt, db)
              == Trace([], SalaryAssignmentFailed)
    ensures SetEmployeeSalary(Str("7"), SalaryBody(Str("1"), Undefined, Undefined, Undefined, Array([Object([("toString", k)])])), rt, db)
              .queries == []
  {
    var o := Object([("toString", k)]);
    assert StringThrows(o) by { assert o.fields[0].0 == "toString"; }
    assert StringThrows(Array([o])) by { assert Array([o]).elems[0] == o; }
  }

  /** A query field sent as an object with its own `toString` key (which an
      extended query parser builds from `?cardID[toString]=1`) makes the
      conversion throw: each handler answers its catch with no query. */
  lemma ToStringKeyQueryIsCaught(rt: Builtins, db: DbOutcome, k: JsValue)
    ensures GetDepartments(Object([("toString", k)]), rt, db)
              == Trace([], Response(500, Plain("Error getting departments")))
    ensures GetEmployeeSalary(Str("7"), Object([("toString", k)]), rt, db)
              == Trace([], Response(500, Plain("Error getting salary data")))
    ensures GetEmployeeName(Str("7"), Object([("toString", k)]), rt, db) == Trace([], EmployeeNameFailed)
  {
    OwnToStringThrows(k, [], []);
  }

  /** Both ends of the contribution range are accepted, and an absent salary
      is forwarded as null. */
  lemma ContributionBoundsInclusive(x: SalaryInput)
    requires Present(x.department) && x.salary == None
    requires x.contribution == Some(Num(0.0)) || x.contribution == Some(Num(5.0))
    ensures SetSalaryDecision(x).Forward?
    ensures SetSalaryDecision(x).query.params[1] == Null
  {
  }
}
