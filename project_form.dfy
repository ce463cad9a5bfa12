/**
 * The list and value bookkeeping of the project form
 * (src/components/forms/project-form.tsx): the files staged for upload, the
 * attachments kept from the project being edited, the form's values, the
 * result dialog and the field messages shown from a server result. Rendering
 * is not part of this model.
 */
module ProjectFormComponent {
  import opened Wrappers
  import opened Definitions
  import opened Validations
  import opened Actions

  /** A file picked in the browser and not yet uploaded. */
  datatype StagedFile = StagedFile(name: string, mimeType: string, size: nat)

  /** The values held by the form's inputs. */
  datatype FormValues = FormValues(
    titulo: string,
    resumen: string,
    presupuesto: Option<real>,
    estado: ProjectStatus,
    entidadProponente: string,
    isPublic: bool,
    description: string)

  /**
   * The form's starting values: the edited project's own fields (a missing
   * description shows as ""), or a blank proposal in state PROPUESTO.
   */
  function DefaultValues(project: Option<Project>): (v: FormValues)
    ensures project.Some? ==>
      && v.titulo == project.value.titulo && v.resumen == project.value.resumen
      && v.presupuesto == project.value.presupuesto && v.estado == project.value.estado
      && v.entidadProponente == project.value.entidadProponente
      && v.isPublic == project.value.isPublic
      && v.description == (if project.value.description.Some? then project.value.description.value else "")
    ensures project.None? ==> v == FormValues("", "", None, Propuesto, "", false, "")
  {
    match project
    case Some(p) =>
      FormValues(p.titulo, p.resumen, p.presupuesto, p.estado, p.entidadProponente, p.isPublic,
                 p.description.GetOr(""))
    case None =>
      FormValues("", "", None, Propuesto, "", false, "")
  }

  /** How the schema sees the form's values when it checks them in the browser. */
  function ValuesAsRaw(v: FormValues): RawProject {
    RawProject(Str(v.titulo), Str(v.resumen),
               if v.presupuesto.Some? then Num(v.presupuesto.value) else Undefined,
               Str(StatusCode(v.estado)), Str(v.entidadProponente), Bool(v.isPublic), Str(v.description))
  }

  /** A blank new-project form is refused on exactly the title, the abstract and the proposing entity. */
  lemma BlankFormRejected()
    ensures var issues := CollectIssues(ValuesAsRaw(DefaultValues(None)));
      && issues.Keys == {Titulo, Resumen, EntidadProponente}
      && issues[Titulo] == [TituloMessage]
      && issues[Resumen] == [ResumenMessage]
      && issues[EntidadProponente] == [EntidadMessage]
  {
    var issues := CollectIssues(ValuesAsRaw(DefaultValues(None)));
    assert Issue(ValuesAsRaw(DefaultValues(None)), Estado).None? by {
      ParseStatusCode(Propuesto);
    }
  }

  /** The attachments the form starts with: the edited project's, or none. */
  function InitialAttachments(project: Option<Project>): (r: seq<Attachment>)
    ensures project.Some? ==> r == project.value.attachments
    ensures project.None? ==> r == []
  {
    if project.Some? then project.value.attachments else []
  }

  /**
   * `s.filter((_, i) => i !== index)`: keeps every element whose position is
   * not `index`. Positions are JavaScript numbers, so `index` may be any integer.
   */
  function WithoutIndex<T>(s: seq<T>, index: int): (r: seq<T>)
    ensures |r| == if 0 <= index < |s| then |s| - 1 else |s|
    ensures forall x :: x in r ==> x in s
    decreases |s|
  {
    if s == [] then [] else (if index == 0 then [] else [s[0]]) + WithoutIndex(s[1..], index - 1)
  }

  /** Filtering out a position out of range changes nothing. */
  lemma {:induction false} WithoutIndexOutOfRange<T>(s: seq<T>, index: int)
    requires index < 0 || index >= |s|
    ensures WithoutIndex(s, index) == s
    decreases |s|
  {
    if s != [] {
      WithoutIndexOutOfRange(s[1..], index - 1);
      assert [s[0]] + s[1..] == s;
    }
  }

  /** Filtering out a position in range removes exactly that element and keeps the others in order. */
  lemma {:induction false} WithoutIndexInRange<T>(s: seq<T>, index: int)
    requires 0 <= index < |s|
    ensures WithoutIndex(s, index) == s[..index] + s[index + 1..]
    decreases |s|
  {
    if index == 0 {
      WithoutIndexOutOfRange(s[1..], -1);
    } else {
      WithoutIndexInRange(s[1..], index - 1);
      SpliceAfterHead(s, index);
    }
  }

  /** Splicing out a later position of the tail, then putting the head back, splices it out of the whole. */
  lemma SpliceAfterHead<T>(s: seq<T>, index: int)
    requires 0 < index < |s|
    ensures [s[0]] + (s[1..][..index - 1] + s[1..][index..]) == s[..index] + s[index + 1..]
  {
    assert s[1..][..index - 1] == s[1..index];
    assert s[1..][index..] == s[index + 1..];
    assert [s[0]] + s[1..index] == s[..index];
  }

  /**
   * Filtering out a position in range removes exactly that element and keeps
   * the others in order; a position out of range changes nothing.
   */
  lemma WithoutIndexSplices<T>(s: seq<T>, index: int)
    ensures WithoutIndex(s, index) == if 0 <= index < |s| then s[..index] + s[index + 1..] else s
  {
    if 0 <= index < |s| {
      WithoutIndexInRange(s, index);
    } else {
      WithoutIndexOutOfRange(s, index);
    }
  }

  /** Splicing out one position keeps every other element and exactly one fewer. */
  lemma SpliceMultiset<T>(s: seq<T>, index: int)
    requires 0 <= index < |s|
    ensures multiset(s[..index] + s[index + 1..]) + multiset{s[index]} == multiset(s)
    ensures multiset(s[..index] + s[index + 1..]) <= multiset(s)
  {
    assert s == s[..index] + [s[index]] + s[index + 1..];
  }

  /** Removing by position never adds anything, and in range drops exactly one element. */
  lemma RemovalShrinks<T>(s: seq<T>, index: int)
    ensures multiset(WithoutIndex(s, index)) <= multiset(s)
    ensures |WithoutIndex(s, index)| == if 0 <= index < |s| then |s| - 1 else |s|
    ensures 0 <= index < |s| ==> multiset(WithoutIndex(s, index)) + multiset{s[index]} == multiset(s)
  {
    WithoutIndexSplices(s, index);
    if 0 <= index < |s| {
      SpliceMultiset(s, index);
    }
  }

  /** `parts.join(sep)`. */
  function Join(parts: seq<string>, sep: string): (r: string)
    ensures parts == [] ==> r == ""
    ensures parts != [] ==> parts[0] <= r
    ensures parts != [] ==> |parts[|parts| - 1]| <= |r| && r[|r| - |parts[|parts| - 1]|..] == parts[|parts| - 1]
    decreases |parts|
  {
    if |parts| == 0 then "" else if |parts| == 1 then parts[0] else parts[0] + sep + Join(parts[1..], sep)
  }

  /** Joining is left to right: one more part adds the separator and the part at the end. */
  lemma {:induction false} JoinSnoc(parts: seq<string>, last: string, sep: string)
    requires parts != []
    ensures Join(parts + [last], sep) == Join(parts, sep) + sep + last
    decreases |parts|
  {
    if |parts| == 1 {
      assert parts + [last] == [parts[0], last];
    } else {
      assert (parts + [last])[1..] == parts[1..] + [last];
      JoinSnoc(parts[1..], last, sep);
    }
  }

  /** The message each field shows: its server errors joined with ", ". */
  function JoinedErrors(errors: FieldErrors): (shown: map<Field, string>)
    ensures shown.Keys == errors.Keys
    ensures forall f :: f in shown && |errors[f]| == 1 ==> shown[f] == errors[f][0]
  {
    map f | f in errors :: Join(errors[f], ", ")
  }

  /**
   * Every message the form shows after a rejected submission is the one
   * message of that field's rule, unchanged.
   */
  lemma ShownMessagesAreRuleMessages(prevState: FormState, formData: FormData,
                                     toNumber: string -> JsNumber, oracle: ScoringAssistant.Oracle, f: Field)
    ensures var r := ScoreAndProcessProject(prevState, formData, toNumber, oracle);
      r.state.errors.Some? ==>
        (f in JoinedErrors(r.state.errors.value) <==> Issue(RawFromForm(formData, toNumber), f).Some?)
        && (f in JoinedErrors(r.state.errors.value) ==>
              JoinedErrors(r.state.errors.value)[f] == Issue(RawFromForm(formData, toNumber), f).value)
  {
  }

  /** The form component's state. */
  class ProjectForm {
    /** Whether the form edits an existing project (it was given one). */
    const isEditing: bool
    /** The attachments the project had when the form opened. */
    ghost const initialAttachments: seq<Attachment>

    var values: FormValues
    var stagedFiles: seq<StagedFile>
    var existingAttachments: seq<Attachment>
    var showResultDialog: bool
    var fieldMessages: map<Field, string>

    /**
     * The kept attachments are always some of the project's own (never a new
     * or repeated one), and a new project never has any.
     */
    ghost predicate Valid()
      reads this
    {
      && multiset(existingAttachments) <= multiset(initialAttachments)
      && (isEditing || initialAttachments == [])
    }

    constructor (project: Option<Project>)
      ensures Valid()
      ensures isEditing == project.Some? && initialAttachments == InitialAttachments(project)
      ensures existingAttachments == InitialAttachments(project) && stagedFiles == []
      ensures values == DefaultValues(project)
      ensures !showResultDialog && fieldMessages == map[]
    {
      isEditing := project.Some?;
      initialAttachments := InitialAttachments(project);
      values := DefaultValues(project);
      stagedFiles := [];
      existingAttachments := InitialAttachments(project);
      showResultDialog := false;
      fieldMessages := map[];
    }

    /** The user edits the inputs. */
    method ChangeValues(v: FormValues)
      requires Valid()
      modifies this
      ensures Valid()
      ensures values == v
      ensures stagedFiles == old(stagedFiles) && existingAttachments == old(existingAttachments)
      ensures showResultDialog == old(showResultDialog) && fieldMessages == old(fieldMessages)
    {
      values := v;
    }

    /** New files picked: appended after the ones already staged. */
    method HandleFileChange(files: seq<StagedFile>)
      requires Valid()
      modifies this
      ensures Valid()
      ensures stagedFiles == old(stagedFiles) + files
      ensures stagedFiles[..|old(stagedFiles)|] == old(stagedFiles)
      ensures existingAttachments == old(existingAttachments) && values == old(values)
      ensures showResultDialog == old(showResultDialog) && fieldMessages == old(fieldMessages)
    {
      stagedFiles := stagedFiles + files;
    }

    /** Drops the staged file at `index`; an index out of range drops nothing. */
    method RemoveStagedFile(index: int)
      requires Valid()
      modifies this
      ensures Valid()
      ensures stagedFiles == WithoutIndex(old(stagedFiles), index)
      ensures existingAttachments == old(existingAttachments) && values == old(values)
      ensures showResultDialog == old(showResultDialog) && fieldMessages == old(fieldMessages)
    {
      stagedFiles := WithoutIndex(stagedFiles, index);
    }

    /** Drops the kept attachment at `index`; the staged files are untouched. */
    method RemoveExistingAttachment(index: int)
      requires Valid()
      modifies this
      ensures Valid()
      ensures existingAttachments == WithoutIndex(old(existingAttachments), index)
      ensures stagedFiles == old(stagedFiles) && values == old(values)
      ensures showResultDialog == old(showResultDialog) && fieldMessages == old(fieldMessages)
    {
      RemovalShrinks(existingAttachments, index);
      existingAttachments := WithoutIndex(existingAttachments, index);
    }

    /**
     * A new result from the controller: an assessment opens the result
     * dialog, and each field with errors shows them joined with ", ".
     */
    method ReceiveFormState(state: FormState)
      requires Valid()
      modifies this
      ensures Valid()
      ensures showResultDialog == (old(showResultDialog) || (state.message != "" && state.aiResult.Some?))
      ensures fieldMessages ==
        if state.errors.Some? then old(fieldMessages) + JoinedErrors(state.errors.value) else old(fieldMessages)
      ensures stagedFiles == old(stagedFiles) && existingAttachments == old(existingAttachments)
      ensures values == old(values)
    {
      if state.message != "" && state.aiResult.Some? {
        showResultDialog := true;
      }
      if state.errors.Some? {
        fieldMessages := fieldMessages + JoinedErrors(state.errors.value);
      }
    }

    /**
     * The result dialog is confirmed: a new-project form starts over (the
     * reset restores the blank values and clears the field messages, and both
     * file lists are emptied); an edit form keeps everything.
     */
    method ConfirmResultDialog()
      requires Valid()
      modifies this
      ensures Valid()
      ensures !showResultDialog
      ensures !isEditing ==>
        && values == DefaultValues(None) && fieldMessages == map[]
        && stagedFiles == [] && existingAttachments == []
      ensures isEditing ==>
        && values == old(values) && fieldMessages == old(fieldMessages)
        && stagedFiles == old(stagedFiles) && existingAttachments == old(existingAttachments)
    {
      if !isEditing {
        values := DefaultValues(None);
        fieldMessages := map[];
        stagedFiles := [];
        existingAttachments := [];
      }
      showResultDialog := false;
    }
  }
}
