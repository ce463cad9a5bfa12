# Project intake of a research-project portal, in Dafny

The portal lets researchers submit research project proposals. A submission
goes through a server action that coerces the raw form entries, checks them
against the project schema, asks a generative-AI scoring assistant for an
assessment, and returns a result to the form. The form keeps the files staged
for upload and the attachments of the project being edited. The rest of the
portal reads seed data standing in for a database.

The Dafny project models that intake path and the seed data:

- `wrappers.dfy`: `Option` and `Result`.
- `definitions.dfy`: users, projects, products and attachments, and the four project states.
- `validations.dfy`: the project schema. A raw record becomes either a typed
  record or a map from every failing field to its message.
- `ai_scoring_assistant.dfy`: the scoring assistant. The model behind it is a
  function parameter that may throw. An answer outside the output schema
  (a score outside [0, 100]) is a failure.
- `actions.dfy`: the submission controller shared by the create and update
  actions. Its effects are returned as values: the assistant requests it made
  and the cache paths it invalidates.
- `project_form.dfy`: the form component's state as a class. It holds the
  staged files, the kept attachments, the values, the result dialog and the
  field messages, and its methods mirror the component's handlers.
- `array_ops.dfy`: JavaScript's `find` and `flatMap`.
- `mock_data.dfy`: the attachment and product generators, the seed users and
  projects, and the flattened product list.
- `data.dfy`: the two queries over the seed projects.
- `utils.dfy`: the product-type label table, and the badge fallback to the raw code.

The schema declares `description` optional (src/lib/validations.ts:11), but
the controller hands it `formData.get("description")`, which is `null` when
the entry is missing, and an optional string accepts only a string or
`undefined`. So a form without a description entry is rejected
(`Actions.MissingDescriptionIsRejected`).

Two other pieces of the code's behaviour are kept as written:

- A budget entry that is missing, empty, `"0"` or not a number reaches the
  schema as "no budget". Only a negative number is rejected.
- Nothing is stored. A successful submission only returns the assessment and
  invalidates the views.

## Model

| member | source | states |
|---|---|---|
| Validations.MinLengthString | src/lib/validations.ts:5-6 | a string of at least the minimum length passes unchanged; a shorter one fails with the rule's own message; a value that is not a string fails with the library's type message |
| Validations.CheckPresupuesto | src/lib/validations.ts:7 | an absent budget passes as none; a number passes exactly when it is strictly positive; 0 and negative numbers fail with "El presupuesto debe ser un número positivo" |
| Validations.ParseStatus | src/lib/validations.ts:8 | a state is read exactly for the four literals PROPUESTO, EN_CURSO, FINALIZADO, CANCELADO, and it writes back as the same literal |
| Validations.ParseStatusCode | src/lib/validations.ts:8 | every state is read back from its own literal |
| Validations.CheckEstado | src/lib/validations.ts:8 | the state passes exactly when it is one of the four literals; any other string fails with the library's invalid-enum message naming the received value |
| Validations.CheckIsPublic | src/lib/validations.ts:10 | visibility passes for a boolean and for an absent value, which becomes false |
| Validations.CheckDescription | src/lib/validations.ts:11 | an absent description passes as none; a string passes unchanged; anything else, null included, fails |
| Validations.Validate | src/lib/validations.ts:4-12 | a record passes iff no field rule fails. On success each output field equals its input, with the rules' bounds. On failure the error map is non-empty, its keys are exactly the failing fields, and each holds that field's one message |
| Validations.ValidateRoundTrip | src/lib/validations.ts:4-12 | a record that meets every rule, read back as raw input, validates to itself |
| ScoringAssistant.AiScoreProjectProposal | src/ai/flows/ai-scoring-assistant.ts:22-31 | the call succeeds iff the model answers within the output schema. It then returns the model's answer unchanged, whose score lies in [0, 100] |
| Actions.Get | src/lib/actions.ts:23-29 | a form entry reads as its string when present and as null when missing |
| Actions.CoerceBudget | src/lib/actions.ts:25 | the budget is a number iff the entry parses to a number other than 0, and then it is that number; otherwise it is undefined |
| Actions.CoerceIsPublic | src/lib/actions.ts:27 | visibility is true iff the entry is exactly "on" |
| Actions.ScoringInputOf | src/lib/actions.ts:43-48 | the assistant receives the title, the abstract, the budget or 0, and the description or "" |
| Actions.PathsToInvalidate | src/lib/actions.ts:54-57 | the project list is always invalidated first; the edit page of the id is invalidated second, and only when the form has an id |
| Actions.ScoreAndProcessProject | src/lib/actions.ts:18-69 | invalid input gives the validation message and the field errors, with no assistant call and no invalidation. Valid input calls the assistant exactly once with the validated values. On success the result is the create/update message and the unchanged assessment, and the views are invalidated. On failure the result is the generic message alone, and nothing is invalidated |
| Actions.BudgetRejectedOnlyWhenNegative | src/lib/actions.ts:25 | the budget fails validation exactly when its entry parses to a negative number, and then with the positivity message |
| Actions.ZeroOrNaNBudgetIsAbsent | src/lib/actions.ts:25 | a missing entry, or one that parses to 0 or NaN, never fails validation and is validated as no budget |
| Actions.IsPublicIsOnCheckbox | src/lib/actions.ts:27 | visibility never fails validation and is validated as true exactly for the entry "on" |
| Actions.MissingDescriptionIsRejected | src/lib/actions.ts:29 | a form without a description entry is rejected on `description` with "Expected string, received null" and is not scored |
| Actions.AssessmentWithinBounds | src/lib/actions.ts:43-62 | every assessment a form receives has a score in [0, 100], whatever the model does |
| Actions.ScoredOnlyWhenValid | src/lib/actions.ts:32-48 | the assistant is asked at most once, and exactly when the submission validates |
| Actions.ResultShapes | src/lib/actions.ts:32-68 | the result is either field errors with the validation message, or an assessment with the success message, or the scoring-failure message alone. Views are invalidated iff an assessment is returned, and two paths iff that happens while editing |
| Actions.ShortTituloIsNeverScored | src/lib/actions.ts:22-37 | a title under ten characters is reported on `titulo` with its message, and the submission is not scored |
| Actions.RawFromForm | src/lib/actions.ts:22-30 | each text field is the entry's string when present and null when missing; the budget is a number or undefined; visibility is always a boolean |
| Actions.RecordOf | src/lib/actions.ts:22-30 | the typed record of a form that meets every rule: the submitted texts and state, the description, visibility true iff the entry is "on", and the budget iff the entry parses to a non-zero number, which is then positive |
| Actions.WellFormedFormValidates | src/lib/actions.ts:22-30 | a form that meets every rule (any state literal, budget and visibility entries optional) validates to exactly its typed record |
| Actions.ValidatedFormMeetsEveryRule | src/lib/actions.ts:22-37 | conversely, a form that validates meets every rule |
| Actions.ValidCreationIsScored | src/lib/actions.ts:40-62 | a creation (no id) that meets every rule, with a model that answers in range, is scored once with the submitted values, the budget or 0; it gets the "creada" message and no errors, and only the project list is invalidated |
| Actions.ExportedActionsAgree | src/lib/actions.ts:71-72 | the create and update actions give the same result as the shared controller on every submission |
| ProjectFormComponent.DefaultValues | src/components/forms/project-form.tsx:75-90 | an edit form starts from the project's own fields, with a missing description shown as ""; a new-project form starts with empty texts, no budget, state PROPUESTO and not public |
| ProjectFormComponent.InitialAttachments | src/components/forms/project-form.tsx:63 | the kept attachments start as the project's when editing and as none otherwise |
| ProjectFormComponent.WithoutIndex | src/components/forms/project-form.tsx:100 | filtering out an index drops one element in range and none out of range, and adds no element |
| ProjectFormComponent.Join | src/components/forms/project-form.tsx:124 | joining no parts gives ""; otherwise the result starts with the first part and ends with the last |
| ProjectFormComponent.BlankFormRejected | src/components/forms/project-form.tsx:81-89 | the blank new-project values (PROPUESTO, not public, no budget, empty texts) fail exactly on title, abstract and proposing entity, each with its rule's message |
| ProjectFormComponent.WithoutIndexSplices | src/components/forms/project-form.tsx:99-105 | filtering out an index in range removes exactly that element and keeps the others in order; an index out of range changes nothing |
| ProjectFormComponent.WithoutIndexInRange | src/components/forms/project-form.tsx:100 | filtering out an index in range gives the elements before it followed by the elements after it |
| ProjectFormComponent.WithoutIndexOutOfRange | src/components/forms/project-form.tsx:100 | filtering out a negative index, or one past the end, gives the list unchanged |
| ProjectFormComponent.RemovalShrinks | src/components/forms/project-form.tsx:99-105 | removal by index never adds an element; in range it drops exactly that one element, out of range it drops none |
| ProjectFormComponent.JoinSnoc | src/components/forms/project-form.tsx:124 | joining one more message appends the separator and that message |
| ProjectFormComponent.JoinedErrors | src/components/forms/project-form.tsx:119-127 | exactly the fields with errors get a message, and a field with one error shows that error unchanged |
| ProjectFormComponent.ShownMessagesAreRuleMessages | src/components/forms/project-form.tsx:119-127 | after a rejected submission, a field shows a message iff its rule failed, and the message is that rule's message |
| ProjectFormComponent.ProjectForm.constructor | src/components/forms/project-form.tsx:59-90 | no files are staged; the kept attachments are the project's when editing and none otherwise; the values are the defaults; the dialog is closed |
| ProjectFormComponent.ProjectForm.ChangeValues | src/components/forms/project-form.tsx:73-90 | editing the inputs replaces the values and nothing else |
| ProjectFormComponent.ProjectForm.HandleFileChange | src/components/forms/project-form.tsx:92-97 | new files are appended after the staged ones, so the old list is a prefix of the new one; nothing else changes |
| ProjectFormComponent.ProjectForm.RemoveStagedFile | src/components/forms/project-form.tsx:99-101 | the staged list loses the file at the index (none if out of range); nothing else changes |
| ProjectFormComponent.ProjectForm.RemoveExistingAttachment | src/components/forms/project-form.tsx:103-105 | the kept attachments lose the one at the index and stay a sub-multiset of the project's originals; the staged files are untouched |
| ProjectFormComponent.ProjectForm.ReceiveFormState | src/components/forms/project-form.tsx:107-129 | a result with a message and an assessment opens the dialog; each field with errors shows them joined with ", "; the file lists and values are unchanged |
| ProjectFormComponent.ProjectForm.ConfirmResultDialog | src/components/forms/project-form.tsx:387-393 | the dialog closes. A new-project form resets its values and messages and empties both file lists. An edit form keeps all of these |
| ArrayOps.Find | src/lib/data.ts:14 | the result is the first element satisfying the predicate; nothing is returned only when no element satisfies it |
| ArrayOps.FindOnlyMatch | src/lib/data.ts:14 | when at most one element satisfies the predicate, the element found is the only one that does |
| ArrayOps.FlatMap | src/lib/mock-data.ts:155 | the flattened list is as long as all parts together and starts with the first element's part |
| ArrayOps.FlatMapContents | src/lib/mock-data.ts:155 | the flattened list has the total length of the parts, and an element is in it iff it is in some part |
| ArrayOps.FlatMapSnoc | src/lib/mock-data.ts:155 | flattening keeps the parts in order: one more element appends its part at the end |
| MockData.NatToString | src/lib/mock-data.ts:12-14 | a number is written as a non-empty string of decimal digits, one digit long exactly below ten, with no leading zero from ten on |
| MockData.ParseNatToString | src/lib/mock-data.ts:12-14 | reading back a written number gives the number |
| MockData.GenerateAttachments | src/lib/mock-data.ts:10-22 | exactly `count` attachments, the i-th with id att-{r}-{i+1} and file name documento-anexo-{i+1}.pdf |
| MockData.GeneratedAttachmentsWellFormed | src/lib/mock-data.ts:10-22 | every attachment points at its entity and type and is a PDF; the i-th has size (i+1)·350·1024; ids and file names are pairwise distinct |
| MockData.GenerateProducts | src/lib/mock-data.ts:24-40 | exactly `count` products, the i-th with id prod-{p}-{i+1} |
| MockData.GeneratedProductsWellFormed | src/lib/mock-data.ts:24-40 | every product belongs to its project and is public. The i-th has type [ART_OPEN_A1, PI, TC_A, PCD_A1][i mod 4] and image prod_{(i mod 2)+1}. Each has exactly one attachment, which points back at it with type PRODUCTO. Ids are pairwise distinct |
| MockData.LeadInvestigatorsFound | src/lib/mock-data.ts:54 | the user lookups the seed projects make for user-2 and user-3 find the second and third seed users |
| MockData.MockUserIdsDistinct | src/lib/mock-data.ts:4-8 | the seed users have distinct ids |
| MockData.MockProjectsWellFormed | src/lib/mock-data.ts:42-153 | five projects with distinct ids, every score absent or in [0, 100], every budget positive, and every lead investigator a seed user whose id is the stated one |
| MockData.MockProjectIds | src/lib/mock-data.ts:44 | the seed projects are proj-1 to proj-5, in that order |
| MockData.MockProjectProducts | src/lib/mock-data.ts:56 | every seed product belongs to the project that lists it; the projects have 2, 1, 3, 1 and 0 products |
| MockData.MockProductsContents | src/lib/mock-data.ts:155 | the flattened list has 7 products, each belonging to a seed project that lists it |
| Data.GetProjects | src/lib/data.ts:5-9 | the seed list, unchanged: five projects with distinct ids and scores in range |
| Data.GetProjectById | src/lib/data.ts:11-16 | a project is found iff some seed project has the id, and a found project is a seed project with that id |
| Data.FoundProjectIsUnique | src/lib/data.ts:14 | since ids are unique, a found project is the only seed project with that id |
| Data.ListedProjectsAreFound | src/lib/data.ts:5-16 | looking up the id of any listed project returns that very project |
| Data.ProductsResolveToTheirProject | src/lib/data.ts:14 | every seed product's project id finds the project that lists the product |
| Data.UnknownIdIsNotFound | src/lib/data.ts:14 | an id other than proj-1 to proj-5 finds nothing |
| Data.ThirdSeedIsFound | src/lib/data.ts:14 | proj-3 finds the third seed project |
| Utils.DisplayProductType | src/components/admin/project-products-list.tsx:55 | a labelled code shows its label, and any other code shows as itself |
| Utils.LabelCount | src/lib/utils.ts:9-22 | the table labels exactly twelve codes |
| Utils.LabelsNonEmpty | src/lib/utils.ts:9-22 | every label is non-empty, so a labelled code is always shown by its label |
| Utils.SampleBadges | src/lib/utils.ts:10-21 | ART_OPEN_A1, PA1 and TES_DOC show "Artículo A1", "Patente A1" and "Tesis Doctoral" |
| Utils.LabelledUnionCodes | src/lib/utils.ts:10-13 | ART_OPEN_A1, LIB_A1, CAP_LIB_A1 and PA1 are labelled and are codes of the product-type union |
| Utils.GeneratorTypeBadges | src/lib/mock-data.ts:25 | the four generator codes all belong to the product-type union. Only ART_OPEN_A1 has a label; PI, TC_A and PCD_A1 show their raw code |
| Utils.GeneratedProductBadges | src/lib/mock-data.ts:33 | the badge of the i-th generated product is "Artículo A1" when i mod 4 = 0, and its raw type code otherwise |

## Left out

- Dates are not modelled: a project's deadline and creation time, a product's creation time, and an attachment's upload time.
- MockData.MockProjects: the prose of each seed project is written as "". This covers the abstract, the Markdown description and the three AI texts. Only whether each text is present is kept. So a seed project loaded into an edit form fails the 50-character abstract rule in this model, though every seed abstract in the source meets it. The titles, ids, budgets, states, visibility, scores, users, products and attachments are the seed values.
- The schema library is not modelled as such. Its effect is written out instead: all failing fields are collected, each with one message. Its default wording for type errors, in version 3 of zod, is reproduced for the cases the controller can produce.
- String lengths are counted in characters, where JavaScript counts UTF-16 code units. The two differ only for characters outside the Basic Multilingual Plane.
- Budgets are reals, not IEEE doubles: Infinity is not modelled. `Number(...)` is a function parameter that returns a number or NaN.
- A form is a map from entry name to its first text value; file entries in the submitted form are not modelled.
- Side effects are left out: the toast notifications, all rendering, `console.log`, disabling the response cache, and the asynchronous execution of actions and queries.
- The controller invalidates the views inside the same `try` as the scoring call (src/lib/actions.ts:54-57), so a throwing invalidation would turn a successful assessment into the scoring-failure message. The model assumes invalidation never throws.
- The controller accepts the previous form state and never reads it, and the model does the same.
- The generative model is an abstract function. The prompt and the flow around it are not modelled.
- The form's "Recomendaciones de Mejora" panel reads fields the assistant's output does not have; rendering is out of scope.
- Persistence (Firestore and Firebase) is left out. The controller itself stores nothing, so no postcondition says the project list grows.
- The product form and its action are left out. That action is not defined by the controller module, so there is no behaviour to model.
- The file-size formatting of the file list is left out. It uses floating-point logarithms and rounding.
- The attachments' relatedType and the products' productType are plain strings. The seed data uses PROYECTO and PRODUCTO, which are not values of the declared entity type, and the label table has keys outside the product-type union.
- ProjectFormComponent.ProjectForm.ConfirmResultDialog: the reset is modelled as restoring the blank values and clearing the field messages. The form library's other internal state, such as touched and dirty flags, is not modelled.
