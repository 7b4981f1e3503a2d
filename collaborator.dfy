/** The collaborator controller: looking up a collaborator's name by card ID. */
module Collaborator {

  import opened Options
  import opened Js
  import opened Http

  const CardRequired := Response(400, Message("Debe enviar una cédula."))
  const NoSuchEmployee := Response(400, Message("El empleado no existe."))

  /** `GET /collaborator?cardID=…`: an absent, zero or NaN card ID is 400
      with no query; otherwise one lookup with the card ID as `parseInt`
      without a radix reads it. */
  function CollaboratorDecision(cardID: JsValue, rt: Builtins): (d: Decision)
    ensures d.Forward? <==> Present(IntOrNull(cardID, Unspecified, rt))
    ensures d.Reject? ==> d.response == CardRequired
    ensures d.Forward? ==> d.query == Query(Select, "getempleadonombre", [Param(IntOrNull(cardID, Unspecified, rt))])
  {
    var card := IntOrNull(cardID, Unspecified, rt);
    if Present(card) then Forward(Query(Select, "getempleadonombre", [Param(card)]))
    else Reject(CardRequired)
  }

  /** Success is always 200 with the first row, `undefined` when no row came
      back; a database error of any kind is reported as a missing employee. */
  function CollaboratorAnswer(db: DbOutcome): (r: Response)
    ensures db.Rows? ==> r == Response(200, Json(FirstRow(db.rows)))
    ensures db.Failure? ==> r == NoSuchEmployee
  {
    match db
    case Rows(rows) => Response(200, Json(FirstRow(rows)))
    case Failure(_, _) => NoSuchEmployee
  }

  /** The handler never answers 500. A card ID on which `String` throws
      lands in the catch, which reports a missing employee without a query;
      otherwise the 400 without a query is exactly a missing card ID. */
  function GetCollaboratorName(cardID: JsValue, rt: Builtins, db: DbOutcome): (t: Trace)
    ensures t.response.status in {200, 400}
    ensures |t.queries| <= 1
    ensures StringThrows(cardID) ==> t == Trace([], NoSuchEmployee)
    ensures !StringThrows(cardID) ==> (t.queries == [] <==> !Present(IntOrNull(cardID, Unspecified, rt)))
    ensures t.queries != [] && db.Rows? ==> t.response.status == 200
  {
    if StringThrows(cardID) then Trace([], CollaboratorAnswer(Failure(None, rt.conversionError)))
    else Execute(CollaboratorDecision(cardID, rt), CollaboratorAnswer(db))
  }

  /** A card ID text holding a digit is looked up exactly when `parseInt`
      without a radix reads it as a non-zero number, and then under that
      number; otherwise the answer is the 400. */
  lemma CollaboratorLooksUpParsedText(t: string, rt: Builtins)
    requires HasDigit(t)
    ensures var n := rt.parseIntText(t, Unspecified);
            CollaboratorDecision(Str(t), rt)
              == if n != NaN && n != Num(0.0) then Forward(Query(Select, "getempleadonombre", [Number(n)]))
                 else Reject(CardRequired)
  {
  }

  /** `?cardID[toString]=1`, read by an extended query parser, is answered
      "El empleado no existe." rather than "Debe enviar una cédula.". */
  lemma ToStringKeyCardIsCaught(rt: Builtins, db: DbOutcome, k: JsValue)
    ensures GetCollaboratorName(Object([("toString", k)]), rt, db) == Trace([], NoSuchEmployee)
  {
    OwnToStringThrows(k, [], []);
  }

  /** Without a radix a `0x` card ID is read as hexadecimal: `?cardID=0x1A`
      looks up card 26. */
  lemma HexCardLookedUp(rt: Builtins, db: DbOutcome)
    requires rt.parseIntText("0x1A", Unspecified) == Num(26.0)
    ensures GetCollaboratorName(Str("0x1A"), rt, db).queries
              == [Query(Select, "getempleadonombre", [Number(Num(26.0))])]
  {
    assert IsDigit("0x1A"[0]);
    CollaboratorLooksUpParsedText("0x1A", rt);
  }
}
