/**
 * The project-submission schema (src/lib/validations.ts): every field rule is
 * checked, and every failing field is reported together, keyed by field.
 *
 * Messages the schema does not spell out (a value of the wrong JavaScript
 * type, a state outside the enumeration) use the default wording of version 3
 * of the zod schema library.
 */
module Validations {
  import opened Wrappers
  import opened Definitions

  /** A JavaScript value as the schema receives it. */
  datatype JsValue = Undefined | Null | Str(s: string) | Num(n: real) | NaN | Bool(b: bool)

  /** The fields of a project submission. */
  datatype Field = Titulo | Resumen | Presupuesto | Estado | EntidadProponente | IsPublic | Description

  /** The key a field has in a form and in the error object. */
  function FieldName(f: Field): string {
    match f
    case Titulo => "titulo"
    case Resumen => "resumen"
    case Presupuesto => "presupuesto"
    case Estado => "estado"
    case EntidadProponente => "entidadProponente"
    case IsPublic => "isPublic"
    case Description => "description"
  }

  const AllFields: set<Field> := {Titulo, Resumen, Presupuesto, Estado, EntidadProponente, IsPublic, Description}

  /** The object handed to the schema, one JavaScript value per field. */
  datatype RawProject = RawProject(
    titulo: JsValue,
    resumen: JsValue,
    presupuesto: JsValue,
    estado: JsValue,
    entidadProponente: JsValue,
    isPublic: JsValue,
    description: JsValue)

  /** The typed record the schema produces on success. */
  datatype ValidProject = ValidProject(
    titulo: string,
    resumen: string,
    presupuesto: Option<real>,
    estado: ProjectStatus,
    entidadProponente: string,
    isPublic: bool,
    description: Option<string>)

  /** Error messages keyed by the field they are about. */
  type FieldErrors = map<Field, seq<string>>

  const MinTitulo: nat := 10
  const MinResumen: nat := 50
  const MinEntidad: nat := 3

  const TituloMessage := "Título debe tener al menos 10 caracteres"
  const ResumenMessage := "Resumen debe tener al menos 50 caracteres"
  const PresupuestoMessage := "El presupuesto debe ser un número positivo"
  const EntidadMessage := "Entidad proponente requerida"

  /** The library's list of the accepted states, as it appears in its messages. */
  const StatusList := "'PROPUESTO' | 'EN_CURSO' | 'FINALIZADO' | 'CANCELADO'"

  /** The library's name for the type of a received value. */
  function TypeName(v: JsValue): string {
    match v
    case Undefined => "undefined"
    case Null => "null"
    case Str(_) => "string"
    case Num(_) => "number"
    case NaN => "nan"
    case Bool(_) => "boolean"
  }

  /** The library's message for a value of the wrong type. */
  function InvalidType(expected: string, v: JsValue): string {
    if v.Undefined? then "Required" else "Expected " + expected + ", received " + TypeName(v)
  }

  /** A required string of at least `min` characters. */
  function MinLengthString(v: JsValue, min: nat, message: string): (r: Result<string, string>)
    ensures r.Success? <==> v.Str? && |v.s| >= min
    ensures r.Success? ==> r.value == v.s
    ensures v.Str? && |v.s| < min ==> r == Failure(message)
    ensures !v.Str? ==> r == Failure(InvalidType("string", v))
  {
    match v
    case Str(s) => if |s| >= min then Success(s) else Failure(message)
    case _ => Failure(InvalidType("string", v))
  }

  /** An optional budget: absent is accepted, a present one must be strictly positive. */
  function CheckPresupuesto(v: JsValue): (r: Result<Option<real>, string>)
    ensures r.Success? <==> v.Undefined? || (v.Num? && v.n > 0.0)
    ensures v.Undefined? ==> r == Success(None)
    ensures v.Num? && v.n > 0.0 ==> r == Success(Some(v.n))
    ensures v.Num? && v.n <= 0.0 ==> r == Failure(PresupuestoMessage)
  {
    match v
    case Undefined => Success(None)
    case Num(x) => if x > 0.0 then Success(Some(x)) else Failure(PresupuestoMessage)
    case _ => Failure(InvalidType("number", v))
  }

  /** Reads a state literal. */
  function ParseStatus(code: string): (r: Option<ProjectStatus>)
    ensures r.Some? <==> code in {"PROPUESTO", "EN_CURSO", "FINALIZADO", "CANCELADO"}
    ensures r.Some? ==> StatusCode(r.value) == code
  {
    if code == "PROPUESTO" then Some(Propuesto)
    else if code == "EN_CURSO" then Some(EnCurso)
    else if code == "FINALIZADO" then Some(Finalizado)
    else if code == "CANCELADO" then Some(Cancelado)
    else None
  }

  /** Every state reads back from its own literal. */
  lemma ParseStatusCode(s: ProjectStatus)
    ensures ParseStatus(StatusCode(s)) == Some(s)
  {
    match s
    case Propuesto =>
    case EnCurso =>
    case Finalizado =>
    case Cancelado =>
  }

  /** The state must be one of the four literals. */
  function CheckEstado(v: JsValue): (r: Result<ProjectStatus, string>)
    ensures r.Success? <==> v.Str? && v.s in {"PROPUESTO", "EN_CURSO", "FINALIZADO", "CANCELADO"}
    ensures r.Success? ==> StatusCode(r.value) == v.s
    ensures v.Str? && r.Failure? ==>
      r.error == "Invalid enum value. Expected " + StatusList + ", received '" + v.s + "'"
  {
    match v
    case Str(s) =>
      (match ParseStatus(s)
       case Some(st) => Success(st)
       case None => Failure("Invalid enum value. Expected " + StatusList + ", received '" + s + "'"))
    case _ => Failure(InvalidType(StatusList, v))
  }

  /** Visibility is a boolean that defaults to false. */
  function CheckIsPublic(v: JsValue): (r: Result<bool, string>)
    ensures r.Success? <==> v.Undefined? || v.Bool?
    ensures v.Undefined? ==> r == Success(false)
    ensures v.Bool? ==> r == Success(v.b)
  {
    match v
    case Undefined => Success(false)
    case Bool(b) => Success(b)
    case _ => Failure(InvalidType("boolean", v))
  }

  /** The description is an optional string, passed through unchanged. */
  function CheckDescription(v: JsValue): (r: Result<Option<string>, string>)
    ensures r.Success? <==> v.Undefined? || v.Str?
    ensures v.Undefined? ==> r == Success(None)
    ensures v.Str? ==> r == Success(Some(v.s))
  {
    match v
    case Undefined => Success(None)
    case Str(s) => Success(Some(s))
    case _ => Failure(InvalidType("string", v))
  }

  function MessageOf<T>(r: Result<T, string>): Option<string> {
    if r.Failure? then Some(r.error) else None
  }

  /** The message a field's rule reports, if the rule fails. */
  function Issue(raw: RawProject, f: Field): Option<string> {
    match f
    case Titulo => MessageOf(MinLengthString(raw.titulo, MinTitulo, TituloMessage))
    case Resumen => MessageOf(MinLengthString(raw.resumen, MinResumen, ResumenMessage))
    case Presupuesto => MessageOf(CheckPresupuesto(raw.presupuesto))
    case Estado => MessageOf(CheckEstado(raw.estado))
    case EntidadProponente => MessageOf(MinLengthString(raw.entidadProponente, MinEntidad, EntidadMessage))
    case IsPublic => MessageOf(CheckIsPublic(raw.isPublic))
    case Description => MessageOf(CheckDescription(raw.description))
  }

  /** Every failing field with its message. */
  function CollectIssues(raw: RawProject): FieldErrors {
    map f | f in AllFields && Issue(raw, f).Some? :: [Issue(raw, f).value]
  }

  /**
   * The schema's safe parse: the typed record when every rule passes,
   * otherwise all failing fields at once.
   */
  function Validate(raw: RawProject): (r: Result<ValidProject, FieldErrors>)
    ensures r.Success? <==> forall f: Field :: Issue(raw, f).None?
    ensures r.Failure? ==> r.error != map[]
    ensures r.Failure? ==> forall f: Field :: f in r.error <==> Issue(raw, f).Some?
    ensures r.Failure? ==> forall f: Field :: f in r.error ==> r.error[f] == [Issue(raw, f).value]
    ensures r.Success? ==>
      && raw.titulo.Str? && raw.resumen.Str? && raw.estado.Str? && raw.entidadProponente.Str?
      && r.value.titulo == raw.titulo.s && |r.value.titulo| >= MinTitulo
      && r.value.resumen == raw.resumen.s && |r.value.resumen| >= MinResumen
      && r.value.presupuesto == (if raw.presupuesto.Num? then Some(raw.presupuesto.n) else None)
      && (r.value.presupuesto.Some? ==> r.value.presupuesto.value > 0.0)
      && StatusCode(r.value.estado) == raw.estado.s
      && r.value.entidadProponente == raw.entidadProponente.s && |r.value.entidadProponente| >= MinEntidad
      && r.value.isPublic == (raw.isPublic.Bool? && raw.isPublic.b)
      && r.value.description == (if raw.description.Str? then Some(raw.description.s) else None)
  {
    var titulo := MinLengthString(raw.titulo, MinTitulo, TituloMessage);
    var resumen := MinLengthString(raw.resumen, MinResumen, ResumenMessage);
    var presupuesto := CheckPresupuesto(raw.presupuesto);
    var estado := CheckEstado(raw.estado);
    var entidad := MinLengthString(raw.entidadProponente, MinEntidad, EntidadMessage);
    var isPublic := CheckIsPublic(raw.isPublic);
    var description := CheckDescription(raw.description);
    if titulo.Success? && resumen.Success? && presupuesto.Success? && estado.Success?
       && entidad.Success? && isPublic.Success? && description.Success?
    then
      Success(ValidProject(titulo.value, resumen.value, presupuesto.value, estado.value,
                           entidad.value, isPublic.value, description.value))
    else
      var errors := CollectIssues(raw);
      assert errors != map[] by {
        var failing :| failing in AllFields && Issue(raw, failing).Some?;
        assert failing in errors;
      }
      Failure(errors)
  }

  /**
   * A valid record, submitted again as it stands, is accepted unchanged.
   */
  lemma ValidateRoundTrip(v: ValidProject)
    requires |v.titulo| >= MinTitulo && |v.resumen| >= MinResumen && |v.entidadProponente| >= MinEntidad
    requires v.presupuesto.Some? ==> v.presupuesto.value > 0.0
    ensures Validate(RawOf(v)) == Success(v)
  {
    ParseStatusCode(v.estado);
  }

  /** The raw object a typed record reads as. */
  function RawOf(v: ValidProject): RawProject {
    RawProject(
      Str(v.titulo), Str(v.resumen),
      if v.presupuesto.Some? then Num(v.presupuesto.value) else Undefined,
      Str(StatusCode(v.estado)), Str(v.entidadProponente), Bool(v.isPublic),
      if v.description.Some? then Str(v.description.value) else Undefined)
  }
}
