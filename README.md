# form-modulable: a verified model of the form-configuration engine

This project models in Dafny the core of form-modulable, a Nuxt application in
which an administrator builds multi-step forms. The model covers:

- the form tree itself: a `FormConfig` owns `Step`s, and a `Step` owns `Field`s
  (`form_model.dfy`);
- the builder composable that edits this tree in place (`form_builder.dfy`, a
  class);
- the client helpers that validate, measure, reorder, clone, clean, export and
  import configurations (`form_helpers.dfy`);
- the step verification against an external endpoint, in its shared-store form
  with a history (`step_api_store.dfy`, a class) and in its older per-instance
  form (`step_api.dfy`, a class). Both share `step_api_protocol.dfy`;
- the server-side structural validator (`form_validator.dfy`), the
  database-to-client transformer (`form_transformer.dfy`) and the API error
  mapping (`error_handler.dfy`);
- the query handling of the form list endpoint (`form_list_query.dfy`);
- the credential checks (`auth_utils.dfy`) and the string helpers
  (`helpers.dfy`);
- the field-template catalog (`field_types.dfy`);
- the route guard (`auth_middleware.dfy`) and the role and permission flags
  (`use_auth.dfy`);
- the notification list (`notifications.dfy`, a class);
- the TTL cache (`performance.dfy`, a class) and the image URL builder;
- the icon fallbacks (`icon_manager.dfy`).

Shared vocabulary lives in `common.dfy`:

- `Option`;
- `||` (`OrElse`) and `??` (`GetOr`);
- `filter`, `findIndex` and `find`;
- JavaScript's trim, whitespace and number printing.

JavaScript's dynamic values live in `js_values.dfy`:

- `Value`;
- truthiness;
- reading an own property of an object (`Lookup`, `Prop`), where `Prop`
  throws on `undefined`/`null`;
- the `length > n` test.

The stable `order` sort of ECMAScript 2019 is `order_sort.dfy`. The e-mail
regular expression `/^[^\s@]+@[^\s@]+\.[^\s@]+$/` is `email.dfy`. All three
copies of `isValidEmail` use it.

Code that changes state step by step is imperative Dafny:

- the builder, the two verification composables, the notification list and the
  cache are classes. Their fields are the source's refs, and each method states
  its whole new state in terms of `old` state;
- the loops of `validateField`, `validateForm`, `findFieldById`,
  `validateFormConfig` and the payload-assembly loops are methods with loop
  invariants. Each is proved equal to a specification function, and lemmas
  establish what the source promises about that function.

Pure code is functions and lemmas.

The types follow `types/form.ts`. The builder composable imports the slimmer
`pages/form/types/form.ts`. That file lacks `name`, `stepId` and the extended
presentation fields, and is a strict subset of the larger one, so one datatype
serves both.

Inputs from outside the program are parameters:

- the clock (`Date.now()`, ISO timestamps);
- generated identifiers;
- the outcome of the gateway `$fetch`;
- `JSON.parse`/`JSON.stringify`;
- `RegExp.test` on a user pattern;
- `Number()` on a non-numeric value.

## Model

| member | source | states |
|---|---|---|
| FormModel.AllFields | pages/form/utils/formHelpers.ts:112 | `flatMap(step => step.fields)` of no steps is empty; AllFieldsAppend states how it concatenates |
| FormModel.AllFieldsAppend | pages/form/utils/formHelpers.ts:112 | the fields of steps + [s] are the fields of the steps followed by s's fields |
| FormModel.PatchLaws | pages/form/composables/useFormBuilder.ts:76-81 | `Object.assign(field, updates)`: two merges equal one merge of the combined updates (later keys win); the empty update changes nothing; applying the same update twice is applying it once |
| JsValues.Prop | server/utils/error-handler.ts:18 | a property read throws a TypeError exactly when the object is undefined or null |
| Email.IsValidEmailMatchesPattern | pages/form/utils/formHelpers.ts:83-86 | the e-mail test holds iff the string is local part, '@', domain, '.', suffix, each non-empty and free of whitespace and '@' |
| Email.SampleAddressIsValid | pages/form/utils/formHelpers.ts:83-86 | "a@b.co" is accepted |
| Email.NotAnEmailIsInvalid | pages/form/utils/formHelpers.ts:83-86 | "not-an-email" is rejected |
| Common.RoundDiv | pages/form/utils/formHelpers.ts:122 | `Math.round(a / b)` for naturals: the result is the nearest integer, halves rounded up |
| Common.RoundedPercentBounds | pages/form/utils/formHelpers.ts:111-123 | a rounded percentage of c out of n (c ≤ n) lies in 0..100, is 100 when c = n and 0 when c = 0 |
| Common.FirstIndex | pages/form/composables/useFormBuilder.ts:84-88 | `findIndex`: -1 iff no element matches, otherwise the first matching index |
| Common.FilterKeepsIncreasing | pages/form/composables/useFieldTypes.ts:134 | `filter` keeps the relative order of the elements it keeps |
| Common.Find | pages/form/utils/formHelpers.ts:144-150 | `find`: a result exactly when some element matches, and that result matches and is an element |
| Strings.TrimEnd | utils/helpers/index.ts:65 | `trimEnd()`: a prefix of the input that does not end in whitespace, everything cut being whitespace |
| Strings.TrimStart | server/api/form/index.get.ts:8 | the leading whitespace `parseInt` skips: a suffix that does not start with whitespace, everything cut being whitespace |
| Strings.TrimEmptyIffBlank | server/utils/form-validator.ts:15 | `trim()` is empty iff every character is whitespace |
| Strings.NatToString | server/api/form/index.get.ts:83 | decimal printing: non-empty, all digits, no leading zero |
| OrderSort.SortByFacts | server/utils/form-transformer.ts:17-18 | `sort((a, b) => a.order - b.order)`: same length, sorted by order, a permutation, and stable (the elements of each order value keep their relative order) |
| OrderSort.SortByIsPermutation | pages/form/utils/formHelpers.ts:162-168 | the sort is a permutation of its input |
| OrderSort.SortByIsStableSort | pages/form/utils/formHelpers.ts:162-168 | the sort keeps length, orders by key and is stable |
| OrderSort.SortBySortedIsIdentity | pages/form/utils/formHelpers.ts:162-168 | sorting an already sorted sequence changes nothing |
| OrderSort.SortByMapCommutes | server/utils/form-transformer.ts:17-26 | sorting rows then mapping them equals mapping then sorting when the mapping keeps the order key |
| FormHelpers.Messages | pages/form/utils/formHelpers.ts:36-74 | one message per error, in order |
| FormHelpers.MessagesAppend | pages/form/utils/formHelpers.ts:36-74 | the messages of two error lists concatenate |
| FormHelpers.PushIf | pages/form/utils/formHelpers.ts:45-74 | `errors.push(...)` under a guard: one message appended exactly when the rule is broken, and the message list stays aligned with the error codes |
| FormHelpers.CheckStringRules | pages/form/utils/formHelpers.ts:44-62 | the string checks push exactly the messages of the string errors, in source order |
| FormHelpers.CheckNumberRules | pages/form/utils/formHelpers.ts:65-75 | the numeric checks push exactly the messages of the bound errors, min before max |
| FormHelpers.ValidateField | pages/form/utils/formHelpers.ts:28-78 | the returned messages are exactly the messages of the field's errors |
| FormHelpers.FieldErrorsDefaults | pages/form/utils/formHelpers.ts:31-41 | no rules → no errors; a required field without a truthy value reports "Ce champ est obligatoire" first; an optional empty value reports nothing |
| FormHelpers.FieldErrorsMembership | pages/form/utils/formHelpers.ts:36-75 | an error is reported iff the rules apply and it is the required error, a string-rule error or a bound error |
| FormHelpers.StringPartMembership | pages/form/utils/formHelpers.ts:44-62 | a string error is reported iff the value is a string and the matching rule (minLength, maxLength, email, pattern) is broken |
| FormHelpers.NumberPartMembership | pages/form/utils/formHelpers.ts:65-75 | a bound error is reported iff the value converts to a number below min or above max |
| FormHelpers.TooShortReportedIff | pages/form/utils/formHelpers.ts:45-47 | "Minimum n caractères requis" iff the rules apply, the value is a string, minLength = n is non-zero and the length is below n |
| FormHelpers.TooLongReportedIff | pages/form/utils/formHelpers.ts:49-51 | "Maximum n caractères autorisés" iff the rules apply, the value is a string, maxLength = n is non-zero and the length exceeds n |
| FormHelpers.BadEmailReportedIff | pages/form/utils/formHelpers.ts:54-56 | "Format email invalide" iff email is set and a string value fails the e-mail pattern |
| FormHelpers.BadPatternReportedIff | pages/form/utils/formHelpers.ts:59-61 | "Format invalide" iff a non-empty pattern is set and the string fails its test |
| FormHelpers.BelowMinReportedIff | pages/form/utils/formHelpers.ts:68-70 | "Valeur minimum : n" iff min = n is set and the numeric value is below n |
| FormHelpers.AboveMaxReportedIff | pages/form/utils/formHelpers.ts:72-74 | "Valeur maximum : n" iff max = n is set and the numeric value exceeds n |
| FormHelpers.RequiredAndMinimumAccumulate | pages/form/utils/formHelpers.ts:36-41 | the early return does not fire for a required empty value: '' with required and min 1 yields both the required and the minimum message |
| FormHelpers.ErrorMapSnoc | pages/form/utils/formHelpers.ts:96-101 | the error map gains the field's entry only when its error list is non-empty |
| FormHelpers.ErrorMapKeys | pages/form/utils/formHelpers.ts:91-106 | an id is a key iff some field with that id has errors |
| FormHelpers.ErrorMapLastWins | pages/form/utils/formHelpers.ts:96-101 | with duplicate ids, the last field with errors decides the entry |
| FormHelpers.FormErrorsSpec | pages/form/utils/formHelpers.ts:91-106 | validateForm checks every field of every step: an id is a key iff some field with it has errors, and the entry is that field's messages |
| FormHelpers.ValidateForm | pages/form/utils/formHelpers.ts:91-106 | the loops over steps and fields build exactly the error map of all fields |
| FormHelpers.ValidateStepFields | pages/form/utils/formHelpers.ts:95-102 | the inner loop extends the map of the fields already seen by those of one step |
| FormHelpers.Completion | pages/form/utils/formHelpers.ts:111-139 | 100 with no required field; otherwise round(100·filled/required), hence in 0..100 and 0 when none is filled |
| FormHelpers.AllFilledIsComplete | pages/form/utils/formHelpers.ts:111-123 | when every required field has a value, completion is 100 |
| FormHelpers.OneStepFormCompletion | pages/form/utils/formHelpers.ts:111-139 | for a one-step form, form and step completion agree |
| FormHelpers.FormCompletionCountsAllSteps | pages/form/utils/formHelpers.ts:112-113 | form completion counts the required fields of every step |
| FormHelpers.AllFieldsConcat | pages/form/utils/formHelpers.ts:112 | the fields of two step lists concatenate |
| FormHelpers.FindFieldById | pages/form/utils/formHelpers.ts:144-150 | the loop finds the first field with the id, scanning steps in order; none iff no step holds the id |
| FormHelpers.SearchStep | pages/form/utils/formHelpers.ts:145-148 | when earlier steps hold no match, a match in step i is the overall answer |
| FormHelpers.FieldInStepsNone | pages/form/utils/formHelpers.ts:144-150 | the search finds nothing iff no field of any step has the id |
| FormHelpers.FindStepById | pages/form/utils/formHelpers.ts:155-157 | a step with the id from the config, or none iff no step has it |
| FormHelpers.RenumberFields | pages/form/utils/formHelpers.ts:165 | renumbering keeps the length and numbers the fields 0..n-1 |
| FormHelpers.RenumberSteps | pages/form/utils/formHelpers.ts:176 | renumbering keeps the length and numbers the steps 0..n-1 |
| FormHelpers.ReorderStepFieldsSpec | pages/form/utils/formHelpers.ts:162-168 | same fields up to order, stably sorted by their former order, numbered 0..n-1; the rest of the step unchanged |
| FormHelpers.ReorderStepFieldsIdempotent | pages/form/utils/formHelpers.ts:162-168 | reordering twice is reordering once |
| FormHelpers.ReorderFormStepsSpec | pages/form/utils/formHelpers.ts:173-179 | same steps up to order, stably sorted by their former order, numbered 0..n-1; the rest of the config unchanged |
| FormHelpers.ReorderFormStepsIdempotent | pages/form/utils/formHelpers.ts:173-179 | reordering twice is reordering once |
| FormHelpers.CloneField | pages/form/utils/formHelpers.ts:184-191 | new id, label + " (copie)", order + 1, every other property copied |
| FormHelpers.CloneStep | pages/form/utils/formHelpers.ts:196-208 | new id, title + " (copie)", order + 1; each field gets a fresh id and `stepId` = the ORIGINAL step's id; all else copied |
| FormHelpers.CloneStepFieldsPointToOriginal | pages/form/utils/formHelpers.ts:203-206 | no field of a cloned step points at the clone itself |
| FormHelpers.CleanFieldSpec | pages/form/utils/formHelpers.ts:213-242 | what cleaning keeps (identity, type, label, order, rules, api config), defaults (width 'full'), keeps only when meaningful (placeholder, help text, options, required) and drops |
| FormHelpers.CleanFormConfigIdempotent | pages/form/utils/formHelpers.ts:213-242 | cleaning twice is cleaning once |
| FormHelpers.CleanFormConfigShape | pages/form/utils/formHelpers.ts:213-242 | cleaning keeps the config and step properties, the counts, and every field's id and order |
| FormHelpers.ApiFormatDefaults | pages/form/utils/formHelpers.ts:277-306 | import defaults: VERTICAL, NORMAL, "Nouveau formulaire", "Étape i", order = index, width 'full', generated ids, stepId from the step, no name |
| FormHelpers.ApiFormatRoundTrip | pages/form/utils/formHelpers.ts:247-306 | configToApiFormat then apiFormatToConfig keeps layout, spacing, counts, orders, titles, and every field's type, label, texts, rules, options, required and api config; the API format carries no ids, so form and field ids are fresh, names are lost and stepId is undefined |
| FormHelpers.EncodedStepIsValid | pages/form/utils/formHelpers.ts:395-412 | every step of a modelled config passes the step shape check |
| FormHelpers.EncodedConfigIsValid | pages/form/utils/formHelpers.ts:395-412 | every modelled config passes isValidFormConfig |
| FormHelpers.InvalidShapesRejected | pages/form/utils/formHelpers.ts:395-412 | null, an array, a config without steps, and one whose step lacks fields are rejected |
| FormHelpers.ValidConfigIsObject | pages/form/utils/formHelpers.ts:395-397 | an accepted value is an object |
| FormHelpers.CreateEmptyFormConfig | pages/form/utils/formHelpers.ts:417-434 | one empty step "Étape 1" of order 0, title "Nouveau formulaire", VERTICAL, NORMAL |
| FormHelpers.EmptyFormConfigFacts | pages/form/utils/formHelpers.ts:417-434 | the empty config is valid, 100 % complete and has no errors |
| FormHelpers.SumFieldCountsIsTotal | pages/form/utils/formHelpers.ts:439-458 | the per-step sums are the total and required field counts |
| FormHelpers.CountTypesSpec | pages/form/utils/formHelpers.ts:444-449 | the type counter adds the number of fields of each type to the counts already held |
| FormHelpers.TypeCountsSpec | pages/form/utils/formHelpers.ts:444-449 | a type is a key iff some field has it, mapped to that number of fields |
| FormHelpers.FormStatsTotals | pages/form/utils/formHelpers.ts:439-458 | totals: steps, fields, required, optional = fields − required ≥ 0 |
| FormHelpers.FormStatsTypes | pages/form/utils/formHelpers.ts:439-458 | fieldTypes counts the fields of each type present |
| FormHelpers.FormStatsAverage | pages/form/utils/formHelpers.ts:455 | the average is round(fields/steps), 0 when there are no fields |
| FormBuilder.NoneHeld | pages/form/composables/useFormBuilder.ts:130-136 | steps none of which holds the id yield no field |
| FormBuilder.AllFieldsCons | pages/form/composables/useFormBuilder.ts:130-136 | the fields of s followed by steps are s's fields then theirs |
| FormBuilder.FieldInStepsFrom | pages/form/composables/useFormBuilder.ts:130-136 | skipping steps without the id does not change the search result |
| FormBuilder.LocateAgreesWithFind | pages/form/composables/useFormBuilder.ts:84-88 | the `findIndex` pair of deleteField locates exactly the field findFieldById finds |
| FormBuilder.RetitleStep | pages/form/composables/useFormBuilder.ts:56-59 | retitling keeps the number of steps |
| FormBuilder.RetitleStepSpec | pages/form/composables/useFormBuilder.ts:56-59 | unknown id: no change; otherwise the first step with that id gets the new title and every other step is unchanged |
| FormBuilder.UpdateFieldIn | pages/form/composables/useFormBuilder.ts:76-81 | updating keeps the number of steps |
| FormBuilder.DeleteFieldIn | pages/form/composables/useFormBuilder.ts:83-97 | deleting keeps the number of steps |
| FormBuilder.ShiftAfter | pages/form/composables/useFormBuilder.ts:111-115 | shifting keeps the number of fields |
| FormBuilder.DuplicateFieldIn | pages/form/composables/useFormBuilder.ts:99-127 | duplicating keeps the number of steps |
| FormBuilder.DeleteFieldInSpec | pages/form/composables/useFormBuilder.ts:83-97 | unknown id: no change; otherwise the first step holding it loses one field and is renumbered 0..n-1, other steps untouched; contiguous orders are preserved |
| FormBuilder.DeleteFieldKeepsOthers | pages/form/composables/useFormBuilder.ts:88-94 | the remaining fields keep their relative order: before the deleted one unchanged but for order, after it shifted down by one |
| FormBuilder.RenumberWithout | pages/form/composables/useFormBuilder.ts:90-94 | splice then renumber: one field fewer, the others at their new positions |
| FormBuilder.DuplicateFieldNoOp | pages/form/composables/useFormBuilder.ts:99-110 | an unknown id, or a field whose stepId names no step, changes nothing |
| FormBuilder.RenumberIgnoresOrder | pages/form/composables/useFormBuilder.ts:121-123 | renumbering does not depend on the former orders |
| FormBuilder.ShiftedIsSorted | pages/form/composables/useFormBuilder.ts:111-115 | after shifting a step numbered 0..n-1 past position p, orders are sorted, ≤ p+1 up to p and > p+1 after |
| FormBuilder.SortShiftedWithCopy | pages/form/composables/useFormBuilder.ts:117-120 | pushing the copy (order p+1) and sorting places it right after position p |
| FormBuilder.DuplicateInContiguousStep | pages/form/composables/useFormBuilder.ts:111-123 | on a step numbered 0..n-1 the shift/push/sort/renumber sequence inserts the copy right after the original |
| FormBuilder.ShiftAfterForgetsOrder | pages/form/composables/useFormBuilder.ts:111-115 | shifting changes nothing but orders |
| FormBuilder.InsertForgetsOrder | pages/form/composables/useFormBuilder.ts:117-123 | inserting the same element into sequences equal up to order gives sequences equal up to order |
| FormBuilder.DuplicateInContiguousStepShape | pages/form/composables/useFormBuilder.ts:99-127 | n fields numbered 0..n-1 become n+1 numbered 0..n: the originals up to p unchanged, the copy at p+1, the rest moved up one |
| FormBuilder.DuplicateFieldInWellFormed | pages/form/composables/useFormBuilder.ts:99-127 | in a consistent tree the copy (new id, same name, label + " (copie)") lands at p+1 of its own step, which stays contiguous; other steps untouched |
| FormBuilder.UpdateFieldInSpec | pages/form/composables/useFormBuilder.ts:76-81 | unknown id: no change; otherwise exactly the field findFieldById finds is merged with the updates, nothing else changes, and without an order update contiguity is kept |
| FormBuilder.Builder.constructor | pages/form/composables/useFormBuilder.ts:6-24 | the initial state: one empty step "Étape 1", title "Nouveau formulaire", VERTICAL/NORMAL, active step 0, no selection |
| FormBuilder.Builder.ActiveStep | pages/form/composables/useFormBuilder.ts:26 | the step at the active index, none when the index is out of range; a valid builder always has one |
| FormBuilder.Builder.AddStep | pages/form/composables/useFormBuilder.ts:34-44 | appends "Étape n+1" with order n and no fields, and makes it active |
| FormBuilder.Builder.DeleteStep | pages/form/composables/useFormBuilder.ts:46-54 | removes the step only when it exists and another remains, clamping the active index; otherwise nothing changes |
| FormBuilder.Builder.UpdateStepTitle | pages/form/composables/useFormBuilder.ts:56-59 | the steps become RetitleStep of the old ones (the first step with that id retitled, see RetitleStepSpec); index and selection unchanged; a valid builder stays valid |
| FormBuilder.Builder.AddField | pages/form/composables/useFormBuilder.ts:62-74 | appends the field with a new id, the active step's id and order = field count, and selects it; no active step: no change; contiguity kept; a valid builder stays valid |
| FormBuilder.Builder.UpdateField | pages/form/composables/useFormBuilder.ts:76-81 | the config becomes UpdateFieldIn of the old one; index and selection unchanged; a valid builder stays valid |
| FormBuilder.Builder.DeleteField | pages/form/composables/useFormBuilder.ts:83-97 | the config becomes DeleteFieldIn of the old one; index and selection unchanged; a valid builder stays valid |
| FormBuilder.Builder.DuplicateField | pages/form/composables/useFormBuilder.ts:99-127 | the config becomes DuplicateFieldIn of the old one; index and selection unchanged; a valid builder stays valid |
| FormBuilder.Builder.FindFieldById | pages/form/composables/useFormBuilder.ts:130-136 | the first field with the id, steps in order |
| FormBuilder.Renumber | pages/form/composables/useFormBuilder.ts:92-94 | the `forEach` renumbering loop computes RenumberFields |
| FormBuilder.Shift | pages/form/composables/useFormBuilder.ts:111-115 | the `forEach` shifting loop computes ShiftAfter |
| StepApiProtocol.SubmittedValue | pages/form/composables/useStepApiStore.ts:54-57 | a value is taken exactly when the field exists and `formData[field.name]` is not undefined |
| StepApiProtocol.OverlaySnoc | pages/form/composables/useStepApiStore.ts:52-59 | one more loop step writes its key, or nothing |
| StepApiProtocol.OverlayKeys | pages/form/composables/useStepApiStore.ts:47-59 | a key is present iff the base holds it or some contributing item writes it |
| StepApiProtocol.OverlayLastWins | pages/form/composables/useStepApiStore.ts:52-59 | the last item writing a key decides its value |
| StepApiProtocol.OverlayUntouched | pages/form/composables/useStepApiStore.ts:47-59 | keys no item writes keep their base value |
| StepApiProtocol.MappingEntryAt | pages/form/composables/useStepApiStore.ts:53-57 | a mapping contributes only with non-empty fieldId and parameterName, an existing field and a defined value |
| StepApiProtocol.MappedPayloadSpec | pages/form/composables/useStepApiStore.ts:47-59 | the payload's keys are the static parameters and the names of the applicable mappings |
| StepApiProtocol.MappingEntryKey | pages/form/composables/useStepApiStore.ts:56 | a mapping writes under its parameterName |
| StepApiProtocol.MappedPayloadLastWins | pages/form/composables/useStepApiStore.ts:52-59 | the last applicable mapping of a name sets `formData[field.name]` |
| StepApiProtocol.MappedPayloadUntouched | pages/form/composables/useStepApiStore.ts:47-59 | a static parameter no mapping overrides is sent unchanged |
| StepApiProtocol.NamedPayloadSpec | pages/form/composables/useStepApi.ts:34-39 | the legacy payload's keys are the names of the existing fields with defined values, each with its submitted value |
| StepApiProtocol.NamedPayloadValues | pages/form/composables/useStepApi.ts:34-39 | every legacy payload value is the submitted value under that name |
| StepApiProtocol.Headers | pages/form/composables/useStepApiStore.ts:62-65 | Content-Type application/json overlaid by the config headers |
| StepApiProtocol.InterpretShape | pages/form/composables/useStepApiStore.ts:104-149 | exactly one message is set; success iff the gateway said success; blocked iff an error and validationRequired |
| StepApiProtocol.SuccessResponse | pages/form/composables/useStepApiStore.ts:104-106 | success: proceed, the configured success message or "Vérification réussie !" |
| StepApiProtocol.FailureResponse | pages/form/composables/useStepApiStore.ts:107-110 | failure: response message, else errorMessage, else "Erreur lors de la vérification"; proceed iff not required |
| StepApiProtocol.ThrownError | pages/form/composables/useStepApiStore.ts:135-149 | thrown: 422 → data message or "Données invalides", 400 → data message or "Requête invalide", ≥500 → "Erreur serveur, veuillez réessayer", else the configured or default message; proceed iff not required |
| StepApiStore.Entry | pages/form/composables/useStepApiStore.ts:82-90 | the history entry records the endpoint, the payload, the method (default POST) and whether the gateway said success |
| StepApiStore.Record | pages/form/composables/useStepApiStore.ts:95-102 | `unshift` then `slice(0, 10)`: the new entry first, then the previous ones, at most 10 |
| StepApiStore.Reversed | pages/form/composables/useStepApiStore.ts:95 | the reverse of a sequence, element by element |
| StepApiStore.RecordAllKeepsMostRecent | pages/form/composables/useStepApiStore.ts:95-102 | after any series of attempts the history is the 10 most recent entries, newest first |
| StepApiStore.RecordOntoPrefix | pages/form/composables/useStepApiStore.ts:95-102 | recording onto the kept prefix is the prefix of the longer history |
| StepApiStore.AssemblePayload | pages/form/composables/useStepApiStore.ts:47-59 | the loop over the mappings computes the payload the protocol lemmas describe |
| StepApiStore.Store.constructor | pages/form/composables/useStepApiStore.ts:12-23 | the shared state starts idle, without messages or history |
| StepApiStore.Store.ValidateStepWithApi | pages/form/composables/useStepApiStore.ts:25-153 | disabled or without endpoint: proceed, no request, no state change; otherwise the request sent, the verdict, the messages, the flag reset and one history entry recorded; history ≤ 10 preserved |
| StepApiStore.Store.ClearValidationState | pages/form/composables/useStepApiStore.ts:155-158 | clears both messages and nothing else |
| StepApiStore.Store.ClearValidationResponses | pages/form/composables/useStepApiStore.ts:160-162 | empties the history and nothing else |
| StepApi.AssembleNamedPayload | pages/form/composables/useStepApi.ts:34-39 | the loop over fieldsToSend computes the named payload |
| StepApi.LegacyStepApi.constructor | pages/form/composables/useStepApi.ts:12-14 | starts idle without messages |
| StepApi.LegacyStepApi.ValidateStepWithApi | pages/form/composables/useStepApi.ts:17-87 | disabled or without endpoint: proceed, no change; otherwise a POST request (whatever the config's method) with the named payload, the verdict, the messages and the flag reset; a missing fieldsToSend sends nothing and is handled as a thrown error |
| StepApi.LegacyStepApi.ClearValidationState | pages/form/composables/useStepApi.ts:89-92 | clears both messages, nothing else |
| FormValidator.Flags3 | server/utils/form-validator.ts:43-49 | the listed problems are exactly those whose condition holds |
| FormValidator.Verdict | server/utils/form-validator.ts:61-64 | isValid iff the error list is empty |
| FormValidator.FieldsChecksNoneGrows | server/utils/form-validator.ts:52-57 | once a field throws, the whole field loop throws |
| FormValidator.StepsChecksNoneGrows | server/utils/form-validator.ts:42-58 | once a step throws, the whole step loop throws |
| FormValidator.CheckFields | server/utils/form-validator.ts:52-57 | the field loop appends each field's errors, or throws as the specification does |
| FormValidator.Walk | server/utils/form-validator.ts:11-65 | the imperative walk returns the specified outcome |
| FormValidator.CheckStep | server/utils/form-validator.ts:42-57 | one step's title errors then its fields' errors |
| FormValidator.StepsChecksStep | server/utils/form-validator.ts:42-58 | one more step extends the step errors or throws |
| FormValidator.WalkSteps | server/utils/form-validator.ts:39-59 | the step loop appends each step's errors, or throws |
| FormValidator.ValidateFormConfig | server/utils/form-validator.ts:11-65 | validateFormConfig returns the specified outcome |
| FormValidator.ConfigOutcomeShape | server/utils/form-validator.ts:11-65 | isValid iff no errors; an undefined or null body throws a TypeError |
| FormValidator.StepsChecksThrowIff | server/utils/form-validator.ts:42-58 | the steps throw iff some step is unreadable or one of its fields is |
| FormValidator.FieldsChecksThrowIff | server/utils/form-validator.ts:52-57 | the field loop throws iff some field is undefined or null |
| FormValidator.HeadChecksFirst | server/utils/form-validator.ts:15-36 | form-level errors come before step errors |
| FormValidator.FormProblemsOfSpec | server/utils/form-validator.ts:15-36 | each form-level problem is listed iff its condition holds |
| FormValidator.FormProblemsSpec | server/utils/form-validator.ts:15-36 | blank title, title > 255, description > 1000, layout not VERTICAL/HORIZONTAL, spacing not COMPACT/NORMAL/RELAXED, each reported iff it holds |
| FormValidator.TitleChecksSeparate | server/utils/form-validator.ts:15-21 | a long non-blank title is only too long; a missing title is only required |
| FormValidator.FieldProblemsOfSpec | server/utils/form-validator.ts:70-98 | each field problem is listed iff its condition holds, at most six |
| FormValidator.FieldProblemsSpec | server/utils/form-validator.ts:70-98 | name and type must be strings, label non-blank and ≤ 255, width and position in their lists; each reported iff broken |
| FormValidator.StepProblemsSpec | server/utils/form-validator.ts:43-49 | blank step title and step title > 255 each reported iff they hold |
| FormValidator.NoStepsNoStepErrors | server/utils/form-validator.ts:39-40 | absent, non-array or empty steps give the form errors and 'Au moins une étape est requise' only |
| FormValidator.ValidateId | server/utils/form-validator.ts:103-116 | valid iff the id is present and not blank; 'ID requis' when missing or empty, 'ID invalide' when only whitespace |
| FormTransformer.SafeJsonParse | server/utils/form-transformer.ts:64-73 | missing or '' → undefined; a parse failure → undefined; otherwise the parsed value |
| FormTransformer.SafeJsonStringify | server/utils/form-transformer.ts:78-87 | a falsy value → `null` (None); otherwise the printer's result |
| FormTransformer.TransformForm | server/utils/form-transformer.ts:6-9 | a missing form throws "Données de formulaire invalides", and only then |
| FormTransformer.TransformStepSorts | server/utils/form-transformer.ts:24-25 | a step's fields come out stably sorted by order, same count, same elements |
| FormTransformer.TransformFormSorts | server/utils/form-transformer.ts:17-18 | the steps come out stably sorted by order, same count, same elements |
| FormTransformer.TransformDefaults | server/utils/form-transformer.ts:14-56 | description '', width 'full', position 'default', options []; flags are booleans true only for a stored true; a stored 0 for min/max/step/rows becomes absent |
| ErrorHandler.PrismaError | server/utils/error-handler.ts:18-36 | P2002 → 409, P2025 → 404, any other code → 500 'Erreur de base de données' |
| ErrorHandler.HandleApiError | server/utils/error-handler.ts:14-48 | never returns: throws a TypeError exactly for undefined/null (or a non-string code), and a rethrow passes the original error |
| ErrorHandler.PrismaTakesPrecedence | server/utils/error-handler.ts:18-36 | a code starting with 'P' is mapped even when a statusCode exists |
| ErrorHandler.NonPrismaErrors | server/utils/error-handler.ts:39-47 | otherwise: rethrown iff statusCode is truthy; else 500 with the message or 'Erreur interne du serveur' |
| ErrorHandler.CreatedErrorsAreWellFormed | server/utils/error-handler.ts:18-47 | every created error has status 409, 404 or 500 and a message |
| ErrorHandler.FormatSuccessResponse | server/utils/error-handler.ts:53-60 | success true with the data, message and timestamp |
| ErrorHandler.FormatErrorResponse | server/utils/error-handler.ts:65-72 | success false with the message, errors and timestamp, no data |
| FormListQuery.DigitRun | server/api/form/index.get.ts:8-9 | `parseInt` reads the longest run of digits of the radix |
| FormListQuery.RunValueOfDecimal | server/api/form/index.get.ts:8-9 | the digits of a printed number read back as that number |
| FormListQuery.DigitRunOfDigits | server/api/form/index.get.ts:8-9 | an all-digit string is read whole |
| FormListQuery.UnsignedDecimal | server/api/form/index.get.ts:8-9 | `parseInt` of a printed natural returns it |
| FormListQuery.ParseIntReadsDecimal | server/api/form/index.get.ts:8-9 | a query parameter holding a printed natural parses to it |
| FormListQuery.UnsignedIsSigned | server/api/form/index.get.ts:8-9 | without a sign the signed reading equals the unsigned one |
| FormListQuery.DigitsNotTrimmed | server/api/form/index.get.ts:8-9 | a string starting with a digit loses nothing to whitespace trimming and has no sign |
| FormListQuery.ParseStopsAtGarbage | server/api/form/index.get.ts:8 | "12abc" parses as 12 |
| FormListQuery.ParseWithoutDigits | server/api/form/index.get.ts:8 | "abc" and a missing parameter parse as NaN |
| FormListQuery.ParseHexadecimal | server/api/form/index.get.ts:9 | "0x1f" parses as 31 |
| FormListQuery.ParseNegative | server/api/form/index.get.ts:9 | "-3" parses as -3 |
| FormListQuery.ParseSkipsWhitespace | server/api/form/index.get.ts:8-9 | leading whitespace is skipped |
| FormListQuery.Page | server/api/form/index.get.ts:8 | page ≥ 1: the parsed value when ≥ 1, otherwise 1 |
| FormListQuery.Limit | server/api/form/index.get.ts:9 | limit in 1..100: missing/NaN/0 → 10, in range kept, above → 100, negative → 1 |
| FormListQuery.SortBy | server/api/form/index.get.ts:11-13 | one of title/createdAt/updatedAt: the requested one when allowed, else createdAt |
| FormListQuery.Order | server/api/form/index.get.ts:14-16 | ascending iff 'asc' was asked, otherwise descending |
| FormListQuery.SearchTerm | server/api/form/index.get.ts:20-26 | a search applies iff the trimmed term is non-empty, and uses the trimmed term |
| FormListQuery.Request | server/api/form/index.get.ts:8-37 | skip = (page−1)·limit, take = limit, with the search and ordering above |
| FormListQuery.PagesTile | server/api/form/index.get.ts:29 | page 1 starts at 0 and each page starts limit after the previous one |
| FormListQuery.CeilDiv | server/api/form/index.get.ts:78 | `Math.ceil(a / b)`: the least r with r·b ≥ a |
| FormListQuery.Paginate | server/api/form/index.get.ts:74-81 | page, limit and totalCount passed through; totalPages is `Math.ceil(totalCount / limit)`, the fewest pages of `limit` rows that hold totalCount; hasNext iff page·limit < totalCount; hasPrev iff page > 1 |
| FormListQuery.HasNextIffBeforeLastPage | server/api/form/index.get.ts:78-79 | hasNext iff page < totalPages |
| FormListQuery.ListLength | server/api/form/index.get.ts:55-56 | a non-array counts as empty, an array by its length |
| FormListQuery.Summarize | server/api/form/index.get.ts:54-69 | stepsCount and fieldsCount are the array lengths; id, title, description copied |
| FormListQuery.ListForms | server/api/form/index.get.ts:54-83 | one summary per form, the pagination block, and "n formulaire(s) récupéré(s)" |
| AuthUtils.PasswordProblemsOfSpec | utils/auth.ts:54-68 | each password problem is listed iff its condition holds |
| AuthUtils.PasswordRanksIncrease | utils/auth.ts:54-68 | problems appear at most once, in source order |
| AuthUtils.PasswordProblemsSpec | utils/auth.ts:51-74 | shorter than 8, no upper-case, no lower-case, no digit: each reported iff it holds |
| AuthUtils.IsValidPassword | utils/auth.ts:51-74 | the messages of the problems; valid iff there are none |
| AuthUtils.StrongPasswordIsValid | utils/auth.ts:51-74 | "Abcdefg1" passes |
| AuthUtils.UsernameIsNeverAnEmail | utils/auth.ts:77-80 | a valid user name (3..20 of [A-Za-z0-9_-]) never passes the e-mail check |
| AuthUtils.UsernameExamples | utils/auth.ts:77-80 | "jean_dupont-2" passes; "jo" and "jean dupont" fail |
| AuthUtils.SanitizeUserData | utils/auth.ts:83-86 | every key but password, with its value unchanged; nothing for a missing user |
| AuthUtils.SanitizeIdempotent | utils/auth.ts:83-86 | sanitizing twice is sanitizing once; a record without password is unchanged |
| AuthUtils.GenerateExpirationDate | utils/auth.ts:89-92 | now + minutes·60000, 60 minutes by default |
| AuthUtils.ExpiryWindow | utils/auth.ts:89-97 | a fresh expiry is not yet expired, and is expired once the time is past it |
| Helpers.Cn | utils/helpers/index.ts:58-60 | no truthy argument gives ''; the joining itself is stated by CnConcat, CnSingle, CnDropsFalsy and CnWritesTrue |
| Helpers.JoinAppend | utils/helpers/index.ts:59 | joining two non-empty lists puts one separator between them |
| Helpers.CnAppendParts | utils/helpers/index.ts:59 | the kept arguments of a concatenation are those of each part |
| Helpers.CnConcat | utils/helpers/index.ts:58-60 | cn(a ++ b) is cn(a) + ' ' + cn(b), or one of them when the other keeps nothing |
| Helpers.CnSingle | utils/helpers/index.ts:58-60 | one class name comes back as it is |
| Helpers.CnDropsFalsy | utils/helpers/index.ts:59 | undefined, false and '' are dropped |
| Helpers.CnWritesTrue | utils/helpers/index.ts:59 | a `true` argument is kept and printed "true" |
| Helpers.Prefix | utils/helpers/index.ts:65 | `substring(0, n)`: a prefix of length clamp(n, 0, length) |
| Helpers.Truncate | utils/helpers/index.ts:63-66 | unchanged when the length is within the limit (default 100); otherwise the trimmed prefix + '...' |
| Helpers.TruncateKeepsPrefix | utils/helpers/index.ts:65 | truncation keeps the first characters up to trailing whitespace of the cut |
| Helpers.UpperChar | utils/helpers/index.ts:79 | the result is not a lower-case ASCII letter |
| Helpers.LowerChar | utils/helpers/index.ts:79 | the result is not an upper-case ASCII letter |
| Helpers.Lower | utils/helpers/index.ts:79 | lower-cases each character |
| Helpers.Capitalize | utils/helpers/index.ts:78-80 | same length; first character upper-cased, the rest lower-cased; '' stays '' |
| Helpers.CapitalizeIdempotent | utils/helpers/index.ts:78-80 | capitalizing twice is capitalizing once |
| Helpers.CapitalizeShape | utils/helpers/index.ts:78-80 | the result starts with no lower-case letter and continues with no upper-case letter |
| FieldTypes.CategoryFilter | pages/form/composables/useFieldTypes.ts:133-135 | the filter keeps exactly the templates of the category |
| FieldTypes.GetFieldsByCategorySpec | pages/form/composables/useFieldTypes.ts:133-135 | getFieldsByCategory returns exactly the catalog's templates of that category |
| FieldTypes.GetFieldsByCategoryInOrder | pages/form/composables/useFieldTypes.ts:133-135 | getFieldsByCategory lists its templates in catalog order |
| FieldTypes.GetFieldTemplate | pages/form/composables/useFieldTypes.ts:137-139 | the template of that type, or none iff no template has it |
| FieldTypes.TemplateIndexAgrees | pages/form/composables/useFieldTypes.ts:4-131 | 14 templates, each at the index its type names |
| FieldTypes.CatalogTypes | pages/form/composables/useFieldTypes.ts:4-131 | 14 pairwise distinct types; url and multiselect are absent, every other type present |
| FieldTypes.TemplateAt | pages/form/composables/useFieldTypes.ts:4-131 | each type other than url/multiselect has its template at a known index |
| FieldTypes.NoUrlOrMultiselectTemplate | pages/form/composables/useFieldTypes.ts:137-139 | 'url' and 'multiselect' have no template |
| FieldTypes.EveryOtherTypeHasTemplate | pages/form/composables/useFieldTypes.ts:137-139 | every other type name finds its template |
| FieldTypes.NameInjective | pages/form/composables/useFieldTypes.ts:4-131 | distinct types have distinct names |
| FieldTypes.OptionTemplates | pages/form/composables/useFieldTypes.ts:53-92 | hasOptions is set exactly on select, radio and checkbox |
| FieldTypes.OptionDefaults | pages/form/composables/useFieldTypes.ts:53-92 | those three carry two default options, the others none |
| FieldTypes.EmailAndRangeDefaults | pages/form/composables/useFieldTypes.ts:18-21 | the email template defaults its rules to {email: true}; the range template defaults min 0 and max 100 |
| FieldTypes.CategoryIndexes | pages/form/composables/useFieldTypes.ts:141-147 | every category has a first template and an entry in fieldCategories |
| FieldTypes.CategoriesCovered | pages/form/composables/useFieldTypes.ts:141-147 | every listed category has a template, and every template's category is listed |
| AuthMiddleware.PercentByte | middleware/auth.global.ts:13 | a byte is written '%' and two hexadecimal digits |
| AuthMiddleware.Utf8 | middleware/auth.global.ts:13 | a character is one to four bytes |
| AuthMiddleware.PercentBytes | middleware/auth.global.ts:13 | three characters per byte, all unreserved or '%' |
| AuthMiddleware.EncodeChar | middleware/auth.global.ts:13 | unreserved characters stay, others become percent-encoded UTF-8 |
| AuthMiddleware.EncodeUriComponent | middleware/auth.global.ts:13 | the encoding contains only unreserved characters and '%' |
| AuthMiddleware.EncodeKeepsUnreserved | middleware/auth.global.ts:13 | a string of unreserved characters is unchanged |
| AuthMiddleware.EncodedIsOneParameter | middleware/auth.global.ts:13 | the encoded path contains no '&', '#', '=' or '?', so it stays one query value |
| AuthMiddleware.NotADelimiter | middleware/auth.global.ts:13 | unreserved characters and '%' are not query delimiters |
| AuthMiddleware.EncodeSlash | middleware/auth.global.ts:13 | '/' is encoded "%2F" |
| AuthMiddleware.Guard | middleware/auth.global.ts:1-29 | public paths never redirect; every redirect goes to a page under /auth |
| AuthMiddleware.PublicPaths | middleware/auth.global.ts:3-5 | '/', '/auth-loading' and any path starting with '/auth' (even '/authors') pass |
| AuthMiddleware.AdminAreas | middleware/auth.global.ts:10-23 | under /admin or /form: redirect to the admin check iff not an authenticated ADMIN |
| AuthMiddleware.NotAdminIsNotIsAdmin | middleware/auth.global.ts:12 | the guard's negated test is the negation of the admin role flag |
| AuthMiddleware.OtherPages | middleware/auth.global.ts:26-28 | elsewhere: login redirect iff the page requires auth and nobody is signed in |
| AuthMiddleware.AdminPassesEverywhere | middleware/auth.global.ts:1-29 | an authenticated admin is never redirected |
| AuthMiddleware.NoRedirectLoop | middleware/auth.global.ts:2-5 | the page a redirect leads to is itself never redirected |
| UseAuth.RoleFlagsExclusive | composables/useAuth.ts:7-17 | at most one role flag; none without an authenticated user |
| UseAuth.PermissionsByRole | composables/useAuth.ts:24-34 | manage forms iff view the admin panel; create implies manage; moderators manage but do not create; users get nothing |
| UseAuth.UserDisplayName | composables/useAuth.ts:41-44 | none iff no user; the first name when non-empty, else the username when non-empty, else the e-mail |
| UseAuth.DisplayNameIsOwn | composables/useAuth.ts:41-44 | the display name is the user's first name, username or e-mail |
| Notifications.Build | composables/useNotifications.ts:20-24 | carries the id and input; a duration left out becomes 5000, a given one (even undefined) is kept |
| Notifications.RemoveFirst | composables/useNotifications.ts:36-41 | unknown id: unchanged; otherwise the first notification with it is spliced out |
| Notifications.RemoveFirstSpec | composables/useNotifications.ts:36-41 | removal without a match is the identity; with one, the rest is kept in order |
| Notifications.AddThenRemove | composables/useNotifications.ts:19-41 | adding then removing a fresh id restores the list |
| Notifications.SameTickRemovesEarlier | composables/useNotifications.ts:19-41 | two notifications of the same millisecond share an id, and removal takes the earlier one |
| Notifications.FirstNewAt | composables/useNotifications.ts:36-41 | a fresh id first occurs where it was appended |
| Notifications.NotificationList.constructor | composables/useNotifications.ts:5-11 | the list starts empty |
| Notifications.NotificationList.AddNotification | composables/useNotifications.ts:19-33 | appends the built notification with id = the current time |
| Notifications.NotificationList.RemoveNotification | composables/useNotifications.ts:36-41 | the list becomes RemoveFirst of the old one |
| Notifications.NotificationList.Notify | composables/useNotifications.ts:44-54 | the typed helpers append a notification of their kind with the given duration |
| Notifications.HelpersPassTheKey | composables/useNotifications.ts:44-54 | a helper always passes `duration`, so an undefined one stays undefined rather than 5000 |
| Performance.CacheGet | composables/core/usePerformance.ts:111-121 | a missing key gives nothing; an expired one gives nothing and is deleted; a live one gives its data |
| Performance.CacheSet | composables/core/usePerformance.ts:123-128 | stores the data with expiry now + ttl, other keys unchanged |
| Performance.GetAfterSet | composables/core/usePerformance.ts:111-128 | a read within the ttl returns what was set; after it, nothing |
| Performance.GetAfterClear | composables/core/usePerformance.ts:111-132 | after clear a read returns nothing |
| Performance.MemoryCache.constructor | composables/core/usePerformance.ts:108-109 | empty cache with the key and ttl (default 300000) |
| Performance.MemoryCache.Get | composables/core/usePerformance.ts:111-121 | behaves as CacheGet on the old cache |
| Performance.MemoryCache.Set | composables/core/usePerformance.ts:123-128 | behaves as CacheSet on the old cache |
| Performance.MemoryCache.Clear | composables/core/usePerformance.ts:130-132 | deletes the key |
| Performance.OptimizeImage | composables/core/usePerformance.ts:89-105 | a non-http source is unchanged; an http one gets the query, defaults w 800, q 80, webp, h only when given |
| Performance.DefaultImageQuery | composables/core/usePerformance.ts:98-102 | the default query is "?w=800&q=80&f=webp" |
| Performance.HeightOnlyWhenGiven | composables/core/usePerformance.ts:102 | a non-zero height adds "&h=…", otherwise nothing |
| Performance.OptimizedExtendsSource | composables/core/usePerformance.ts:89-105 | the result starts with the source |
| IconManager.IconMapShape | composables/useIconManager.ts:10-37 | every icon is a heroicons name with a non-empty emoji and alt |
| IconManager.IconNames | composables/useIconManager.ts:10-37 | every name starts with "heroicons:" |
| IconManager.IconEntries | composables/useIconManager.ts:10-37 | every entry has a non-empty emoji and alt |
| IconManager.InheritedNameLooksAvailable | composables/useIconManager.ts:42-44 | "toString" passes the test as written though no such icon exists |
| IconManager.AvailabilityAgreesOffPrototype | composables/useIconManager.ts:42-44 | off the inherited names the written and intended tests agree |
| IconManager.GetIconFallback | composables/useIconManager.ts:49-51 | the icon's emoji, otherwise '●' |
| IconManager.GetIconAlt | composables/useIconManager.ts:56-58 | the icon's alt, otherwise 'icon' |
| IconManager.FallbacksNeverEmpty | composables/useIconManager.ts:49-58 | fallback and alt are never empty, and an available icon uses its own |
| IconManager.HomeIcon | composables/useIconManager.ts:10-37 | the home icon's alt is "home" and its fallback 🏠 |
| IconManager.GetIconProps | composables/useIconManager.ts:63-71 | name, role img, the given or table fallback, alt and aria-label |
| IconManager.RenderIcon | composables/useIconManager.ts:88-99 | an Icon component with those props and class "inline-block " + classes |

## Left out

- Lengths are counted in characters, not UTF-16 code units, so characters outside the BMP count once.
- Numbers are integers. NaN, Infinity and fractional values are not modelled. `formatFieldValue` (pages/form/utils/formHelpers.ts:353-371) formats locale-dependent numbers and dates, so it is not modelled.
- The `JSON.parse`/`JSON.stringify` of `exportFormConfig`/`importFormConfig` (pages/form/utils/formHelpers.ts:376-390) is not modelled. `exportFormConfig` is `JSON.stringify(cleanFormConfig(config))` and `importFormConfig` is `JSON.parse` of its argument, so both are serializer calls; neither calls `isValidFormConfig`, which nothing in the repository calls and which is modelled on its own.
- `saveFormDraft`, `loadFormDraft` and `clearFormDraft` (pages/form/utils/formHelpers.ts:311-348) are not modelled, because they are I/O on `localStorage`.
- `saveForm` (pages/form/composables/useFormBuilder.ts:139-150) is not modelled, because it is a network call.
- The database calls of the list endpoint and its `try`/`catch` are not modelled. The rows and the total count are parameters.
- Console logging, the `context` argument of `handleApiError` and the notification auto-removal timer are not modelled.
- `checkIconModule` and the rest of `usePerformance` beyond the cache and `optimizeImage` are not modelled.
- Password hashing, token signing and uuid generation in utils/auth.ts are library calls, so they are not modelled.
- Generated identifiers (`generateFieldId`, `generateStepId`, `Date.now()`) and timestamps are parameters. The model does not claim they are unique.
- Builder in-place mutation and aliasing: the builder's methods assign a new value to the whole `config` field. Writes through a `FormField` reference that a caller got from `findFieldById` are not modelled, and neither is the sharing of objects between steps that the spread `...field` creates.
- `Array.prototype.sort` is modelled as a stable sort that returns a new sequence. The source sorts in place. The model does not capture a caller that still holds the old array.
- `RegExp` construction from a user pattern that throws is not modelled. `RegExp.test` is a parameter.
- FormHelpers.ApiFormatDefaults: `apiFormatToConfig` on `any` input is modelled on a typed, already-parsed API shape. Wrongly typed members are not covered.
- FormHelpers.EncodedConfigIsValid: a config is encoded by `EncodeConfig`, which covers the properties `isValidFormConfig` reads and drops the rest.
- FormHelpers.Completion: the percentage is the exact rational 100·filled/required rounded half up, whereas the source rounds the double `(filled / required) * 100`; where that double product falls just below a half the source gives one less (23 of 40 required fields: 57 in the source, 58 here).
- FormHelpers.Completion: `formData[field.id]` is read as an own key (`JsValues.Lookup`). A field whose id names an `Object.prototype` member (`constructor`, `toString`, …) and has no entry in the data reads an inherited function in the source and counts as filled; the model reads it as undefined and counts it as unfilled.
- FormHelpers.FormErrorsSpec: `formData[field.id]` in `validateForm` is read as an own key, as for the completion above. A required field with id `constructor` and no entry in the data gets no error in the source and "Ce champ est obligatoire" in the model; `FormHelpers.ValidateForm`, which is proved equal to it, inherits the gap.
- FormValidator.FormProblemsSpec: `JsValues.LengthExceeds` compares `length` only when it is a string's length, an array's length or a `length` property holding a number. The source's `>` converts any other `length` with ToNumber, so `{"title": {"length": "300"}}` is reported as too long there and not in the model. The same holds for the description limit of 1000.
- FormValidator.StepProblemsSpec: the step-title limit of 255 misses a `length` property that only converts to a large number, as for the form title above.
- FormValidator.FieldProblemsSpec: the field-label limit of 255 misses a `length` property that only converts to a large number, as for the form title above.
- StepApiProtocol.SubmittedValue: `JsValues.Lookup` reads own keys only. In the source `formData` is a plain object, so a field named after an `Object.prototype` member (`constructor`, `toString`, …) reads an inherited, defined value and is put into the payload; the model reads it as undefined and leaves it out.
- Helpers.Capitalize: case mapping is ASCII only. Accented letters are left unchanged, whereas JavaScript's `toUpperCase`/`toLowerCase` map them.
- Helpers.Cn: the arguments are class strings, booleans and undefined/null. Numbers and objects passed to `cn` are not modelled.
- AuthUtils.SanitizeUserData: the user is a plain record or missing. Destructuring a non-object is not modelled.
- A query parameter given several times reaches `parseInt` as an array; that case is not modelled.
- ErrorHandler.HandleApiError: `error.data.message` and other non-string message types are treated as plain values. A thrown non-Error value models only undefined, null and objects.
- `canAddStep` and `canDeleteStep` are modelled as the predicates `CanAddStep` and `CanDeleteStep`. `addStep` does not enforce the limit of 10 steps in the source either.
- StepApi.LegacyStepApi.ValidateStepWithApi: `apiConfig.fieldsToSend` is no property of the current config type. It is an optional argument, and its absence behaves as the TypeError the loop would throw.
- `useOptimizedNavigation`, the stores, the plugins, the server routes other than the list endpoint, and the Prisma schema are not part of this model.
- Conditional visibility (`ConditionalLogic`, `ConditionalRule` in types/form.ts:127-138) is only a type in the source, with no evaluator, so it is carried as opaque data.

## Findings

| source | as written | input that shows it | evidently intended | confidence | as-written member | corrected member |
|---|---|---|---|---|---|---|
| composables/useIconManager.ts:42-44 | `isIconAvailable` returns `!!iconMap[iconName]`, and a plain object literal inherits the members of `Object.prototype` | `isIconAvailable('toString')` is true, while `getIconFallback('toString')` falls back to '●' | true only for names that are keys of the table | not executed | IconManager.InheritedNameLooksAvailable | IconManager.IsIconAvailable |
