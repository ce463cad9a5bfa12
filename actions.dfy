/**
 * The submission controller (src/lib/actions.ts): coerce the raw form fields,
 * validate, score once on success, and report a result for the form. Nothing
 * is stored. The effects the source performs (the scoring call and the cache
 * paths it invalidates) are returned as part of the outcome.
 */
module Actions {
  import opened Wrappers
  import opened Validations
  import opened ScoringAssistant
  import opened Definitions

  /** A submitted form: the first value of every named text entry. */
  type FormData = map<string, string>

  /** What JavaScript's `Number(...)` gives for a string: a number or NaN. */
  datatype JsNumber = NotANumber | Number(x: real)

  /** The result the form receives: a message, with errors or an assessment. */
  datatype FormState = FormState(message: string, aiResult: Option<AiScore>, errors: Option<FieldErrors>)

  /** One pass through the controller: the result, the assistant calls made, the paths invalidated. */
  datatype Submission = Submission(state: FormState, oracleCalls: seq<ScoringInput>, invalidated: seq<string>)

  const ValidationFailedMessage := "Error: Please check the form fields."
  const ScoringFailedMessage := "An error occurred while scoring the project. Please try again."
  const ProjectsPath := "/(admin)/projects"

  function SuccessMessage(isEditing: bool): string {
    "¡Propuesta de proyecto " + (if isEditing then "actualizada" else "creada") + " y evaluada con éxito!"
  }

  function EditPath(id: string): string {
    "/(admin)/projects/" + id + "/edit"
  }

  /** `formData.get(name)`: the entry, or null when the form has none. */
  function Get(formData: FormData, name: string): (v: JsValue)
    ensures v.Str? <==> name in formData
    ensures v.Str? ==> v.s == formData[name]
    ensures !v.Str? ==> v.Null?
  {
    if name in formData then Str(formData[name]) else Null
  }

  /**
   * `Number(formData.get("presupuesto")) || undefined`: a missing entry reads
   * as 0, and 0 and NaN are falsy, so all three become undefined.
   */
  function CoerceBudget(formData: FormData, toNumber: string -> JsNumber): (v: JsValue)
    ensures v.Undefined? || v.Num?
    ensures v.Num? <==> "presupuesto" in formData && toNumber(formData["presupuesto"]).Number?
                        && toNumber(formData["presupuesto"]).x != 0.0
    ensures v.Num? ==> v.n == toNumber(formData["presupuesto"]).x
  {
    if "presupuesto" !in formData then Undefined
    else match toNumber(formData["presupuesto"])
      case NotANumber => Undefined
      case Number(x) => if x == 0.0 then Undefined else Num(x)
  }

  /** `formData.get("isPublic") === "on"`. */
  function CoerceIsPublic(formData: FormData): (v: JsValue)
    ensures v.Bool?
    ensures v.b <==> "isPublic" in formData && formData["isPublic"] == "on"
  {
    Bool("isPublic" in formData && formData["isPublic"] == "on")
  }

  /** The object the controller hands to the schema. */
  function RawFromForm(formData: FormData, toNumber: string -> JsNumber): (raw: RawProject)
    ensures raw.titulo == (if "titulo" in formData then Str(formData["titulo"]) else Null)
    ensures raw.resumen == (if "resumen" in formData then Str(formData["resumen"]) else Null)
    ensures raw.estado == (if "estado" in formData then Str(formData["estado"]) else Null)
    ensures raw.entidadProponente ==
      (if "entidadProponente" in formData then Str(formData["entidadProponente"]) else Null)
    ensures raw.description == (if "description" in formData then Str(formData["description"]) else Null)
    ensures raw.presupuesto.Undefined? || raw.presupuesto.Num?
    ensures raw.isPublic.Bool?
  {
    RawProject(
      titulo := Get(formData, "titulo"),
      resumen := Get(formData, "resumen"),
      presupuesto := CoerceBudget(formData, toNumber),
      estado := Get(formData, "estado"),
      entidadProponente := Get(formData, "entidadProponente"),
      isPublic := CoerceIsPublic(formData),
      description := Get(formData, "description"))
  }

  /** The request sent to the assistant: budget 0 and description "" stand in for absent ones. */
  function ScoringInputOf(v: ValidProject): (r: ScoringInput)
    ensures r.title == v.titulo && r.abstractText == v.resumen
    ensures r.budget == (if v.presupuesto.Some? then v.presupuesto.value else 0.0)
    ensures r.description == (if v.description.Some? then v.description.value else "")
  {
    ScoringInput(v.titulo, v.resumen, v.presupuesto.GetOr(0.0), v.description.GetOr(""))
  }

  /** The paths invalidated after a successful scoring. */
  function PathsToInvalidate(formData: FormData): (paths: seq<string>)
    ensures |paths| >= 1 && paths[0] == ProjectsPath
    ensures |paths| == 2 <==> "id" in formData
    ensures |paths| <= 2
    ensures |paths| == 2 ==> paths[1] == EditPath(formData["id"])
  {
    [ProjectsPath] + (if "id" in formData then [EditPath(formData["id"])] else [])
  }

  /**
   * The shared create/update controller. `prevState` is accepted and unused,
   * as in the source; `toNumber` is JavaScript's number parsing and `oracle`
   * the model behind the scoring assistant.
   */
  function ScoreAndProcessProject(prevState: FormState, formData: FormData,
                                  toNumber: string -> JsNumber, oracle: Oracle): (r: Submission)
    ensures var checked := Validate(RawFromForm(formData, toNumber));
      && (checked.Failure? ==>
            r == Submission(FormState(ValidationFailedMessage, None, Some(checked.error)), [], []))
      && (checked.Success? ==> r.oracleCalls == [ScoringInputOf(checked.value)])
    ensures var checked := Validate(RawFromForm(formData, toNumber));
      checked.Success? ==>
        var scored := AiScoreProjectProposal(oracle, ScoringInputOf(checked.value));
        && (scored.Success? ==>
              && r.state == FormState(SuccessMessage("id" in formData), Some(scored.value), None)
              && r.invalidated == PathsToInvalidate(formData))
        && (scored.Failure? ==>
              r.state == FormState(ScoringFailedMessage, None, None) && r.invalidated == [])
  {
    var checked := Validate(RawFromForm(formData, toNumber));
    if checked.Failure? then
      Submission(FormState(ValidationFailedMessage, None, Some(checked.error)), [], [])
    else
      var input := ScoringInputOf(checked.value);
      var isEditing := "id" in formData;
      match AiScoreProjectProposal(oracle, input)
      case Success(aiResult) =>
        Submission(FormState(SuccessMessage(isEditing), Some(aiResult), None), [input],
                   PathsToInvalidate(formData))
      case Failure(_) =>
        Submission(FormState(ScoringFailedMessage, None, None), [input], [])
  }

  /**
   * A budget entry fails validation exactly when it parses to a negative
   * number: a missing entry, NaN and 0 all become "no budget".
   */
  lemma BudgetRejectedOnlyWhenNegative(formData: FormData, toNumber: string -> JsNumber)
    ensures var issue := Issue(RawFromForm(formData, toNumber), Presupuesto);
      && (issue.Some? <==> "presupuesto" in formData && toNumber(formData["presupuesto"]).Number?
                           && toNumber(formData["presupuesto"]).x < 0.0)
      && (issue.Some? ==> issue.value == PresupuestoMessage)
  {
  }

  /** A budget that parses to 0 or NaN, or is missing, is validated as absent. */
  lemma ZeroOrNaNBudgetIsAbsent(formData: FormData, toNumber: string -> JsNumber)
    requires "presupuesto" in formData ==> toNumber(formData["presupuesto"]) in {NotANumber, Number(0.0)}
    ensures var checked := Validate(RawFromForm(formData, toNumber));
      checked.Success? ==> checked.value.presupuesto == None
    ensures Presupuesto !in CollectIssues(RawFromForm(formData, toNumber))
  {
  }

  /** Visibility never fails validation and is true exactly for the entry "on". */
  lemma IsPublicIsOnCheckbox(formData: FormData, toNumber: string -> JsNumber)
    ensures Issue(RawFromForm(formData, toNumber), IsPublic).None?
    ensures var checked := Validate(RawFromForm(formData, toNumber));
      checked.Success? ==> (checked.value.isPublic <==> "isPublic" in formData && formData["isPublic"] == "on")
  {
  }

  /**
   * A form without a description entry is rejected: the controller passes
   * null, and the optional description accepts only a string or undefined.
   */
  lemma MissingDescriptionIsRejected(formData: FormData, toNumber: string -> JsNumber, oracle: Oracle)
    requires "description" !in formData
    ensures var r := ScoreAndProcessProject(FormState("", None, None), formData, toNumber, oracle);
      && r.state.errors.Some?
      && Description in r.state.errors.value
      && r.state.errors.value[Description] == ["Expected string, received null"]
      && r.oracleCalls == []
  {
    assert InvalidType("string", Null) == "Expected string, received null";
  }

  /** Whatever the model answers, an assessment the form receives has a score in [0, 100]. */
  lemma AssessmentWithinBounds(prevState: FormState, formData: FormData,
                               toNumber: string -> JsNumber, oracle: Oracle)
    ensures var r := ScoreAndProcessProject(prevState, formData, toNumber, oracle);
      r.state.aiResult.Some? ==> MinScore <= r.state.aiResult.value.score <= MaxScore
  {
  }

  /** The assistant is asked at most once, and exactly when the submission is valid. */
  lemma ScoredOnlyWhenValid(prevState: FormState, formData: FormData,
                            toNumber: string -> JsNumber, oracle: Oracle)
    ensures var r := ScoreAndProcessProject(prevState, formData, toNumber, oracle);
      && |r.oracleCalls| <= 1
      && (|r.oracleCalls| == 1 <==> Validate(RawFromForm(formData, toNumber)).Success?)
  {
  }

  /**
   * The result is one of three shapes: field errors with the validation
   * message, an assessment with a success message, or the scoring-failure
   * message alone. Views are invalidated exactly when an assessment is returned.
   */
  lemma ResultShapes(prevState: FormState, formData: FormData,
                     toNumber: string -> JsNumber, oracle: Oracle)
    ensures var r := ScoreAndProcessProject(prevState, formData, toNumber, oracle);
      || (r.state.message == ValidationFailedMessage && r.state.aiResult.None?
          && r.state.errors.Some? && r.state.errors.value != map[] && r.invalidated == [])
      || (r.state.message == SuccessMessage("id" in formData) && r.state.aiResult.Some?
          && r.state.errors.None? && ProjectsPath in r.invalidated)
      || (r.state.message == ScoringFailedMessage && r.state.aiResult.None?
          && r.state.errors.None? && r.invalidated == [])
    ensures var r := ScoreAndProcessProject(prevState, formData, toNumber, oracle);
      (r.invalidated != [] <==> r.state.aiResult.Some?)
      && (|r.invalidated| == 2 <==> r.state.aiResult.Some? && "id" in formData)
  {
  }

  /** A title shorter than ten characters is reported on `titulo` and never scored. */
  lemma ShortTituloIsNeverScored(prevState: FormState, formData: FormData,
                                 toNumber: string -> JsNumber, oracle: Oracle)
    requires "titulo" in formData && |formData["titulo"]| < MinTitulo
    ensures var r := ScoreAndProcessProject(prevState, formData, toNumber, oracle);
      && r.state.errors.Some? && Titulo in r.state.errors.value
      && r.state.errors.value[Titulo] == [TituloMessage]
      && r.oracleCalls == [] && r.state.aiResult.None? && r.invalidated == []
  {
  }

  /**
   * What every rule asks of a submitted form: the three texts present and long
   * enough, a state literal, a description entry, and no negative budget.
   * The budget and visibility entries may be missing.
   */
  predicate MeetsEveryRule(formData: FormData, toNumber: string -> JsNumber) {
    && "titulo" in formData && |formData["titulo"]| >= MinTitulo
    && "resumen" in formData && |formData["resumen"]| >= MinResumen
    && "entidadProponente" in formData && |formData["entidadProponente"]| >= MinEntidad
    && "estado" in formData && ParseStatus(formData["estado"]).Some?
    && "description" in formData
    && !("presupuesto" in formData && toNumber(formData["presupuesto"]).Number?
         && toNumber(formData["presupuesto"]).x < 0.0)
  }

  /** The typed record a form that meets every rule stands for. */
  function RecordOf(formData: FormData, toNumber: string -> JsNumber): (v: ValidProject)
    requires MeetsEveryRule(formData, toNumber)
    ensures v.titulo == formData["titulo"] && v.resumen == formData["resumen"]
    ensures v.entidadProponente == formData["entidadProponente"]
    ensures StatusCode(v.estado) == formData["estado"]
    ensures v.description == Some(formData["description"])
    ensures v.isPublic <==> "isPublic" in formData && formData["isPublic"] == "on"
    ensures v.presupuesto.Some? <==> "presupuesto" in formData && toNumber(formData["presupuesto"]).Number?
                                     && toNumber(formData["presupuesto"]).x != 0.0
    ensures v.presupuesto.Some? ==> v.presupuesto.value == toNumber(formData["presupuesto"]).x > 0.0
  {
    var budget := CoerceBudget(formData, toNumber);
    ValidProject(formData["titulo"], formData["resumen"], if budget.Num? then Some(budget.n) else None,
                 ParseStatus(formData["estado"]).value, formData["entidadProponente"],
                 CoerceIsPublic(formData).b, Some(formData["description"]))
  }

  /** A form whose every entry meets its rule validates to exactly the submitted values. */
  lemma WellFormedFormValidates(formData: FormData, toNumber: string -> JsNumber)
    requires MeetsEveryRule(formData, toNumber)
    ensures Validate(RawFromForm(formData, toNumber)) == Success(RecordOf(formData, toNumber))
  {
    var v := RecordOf(formData, toNumber);
    assert RawFromForm(formData, toNumber) == RawOf(v);
    ValidateRoundTrip(v);
  }

  /** Conversely, a form that validates meets every rule. */
  lemma ValidatedFormMeetsEveryRule(formData: FormData, toNumber: string -> JsNumber)
    requires Validate(RawFromForm(formData, toNumber)).Success?
    ensures MeetsEveryRule(formData, toNumber)
  {
    var checked := Validate(RawFromForm(formData, toNumber));
    ParseStatusCode(checked.value.estado);
    assert Issue(RawFromForm(formData, toNumber), Description).None?;
    assert Issue(RawFromForm(formData, toNumber), Presupuesto).None?;
  }

  /**
   * A creation whose every entry meets its rule (the scenario of the
   * repository's tests is one) calls the model exactly once with the
   * submitted values; when the model answers in range it reports success and
   * refreshes only the project list.
   */
  lemma ValidCreationIsScored(formData: FormData, toNumber: string -> JsNumber, oracle: Oracle)
    requires MeetsEveryRule(formData, toNumber)
    requires "id" !in formData
    requires forall input :: oracle(input).Answered? && MatchesOutputSchema(oracle(input).output)
    ensures var r := CreateProjectAction(FormState("", None, None), formData, toNumber, oracle);
      var v := RecordOf(formData, toNumber);
      && r.state.message == SuccessMessage(false)
      && r.state.errors.None?
      && r.oracleCalls == [ScoringInput(formData["titulo"], formData["resumen"],
                                        v.presupuesto.GetOr(0.0), formData["description"])]
      && r.invalidated == [ProjectsPath]
  {
    WellFormedFormValidates(formData, toNumber);
    assert AiScoreProjectProposal(oracle, ScoringInputOf(RecordOf(formData, toNumber))).Success?;
  }

  /** Both exported actions are the one controller. */
  const CreateProjectAction: (FormState, FormData, string -> JsNumber, Oracle) -> Submission := ScoreAndProcessProject
  const UpdateProjectAction: (FormState, FormData, string -> JsNumber, Oracle) -> Submission := ScoreAndProcessProject

  /** The create and update actions behave identically on every submission. */
  lemma ExportedActionsAgree(prevState: FormState, formData: FormData, toNumber: string -> JsNumber, oracle: Oracle)
    ensures CreateProjectAction(prevState, formData, toNumber, oracle) == UpdateProjectAction(prevState, formData, toNumber, oracle)
    ensures CreateProjectAction(prevState, formData, toNumber, oracle) == ScoreAndProcessProject(prevState, formData, toNumber, oracle)
  {
  }
}
