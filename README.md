# Create-alert workflow and enable-alert route, modelled in Dafny

This project models two pieces of the alerting feature of Kibana's
triggers/actions UI and alerts plugin:

- **The create-alert flyout** (`alert_add.tsx`). It covers:
  - the initial alert draft, built from fixed defaults overridden by the caller's `initialValues`;
  - the draft reducer's `setAlert` and `setProperty` commands;
  - the merged validation errors and the `hasErrors` flag;
  - the per-action validation results and the `hasActionErrors` flag;
  - the `shouldConfirmSave` gate;
  - the save protocol over the draft, `isSaving` and `isConfirmAlertSaveModalOpen`.
- **The enable-alert route handler** (`enable.ts`). The model follows its steps in order: license check, alerting-context check, the alerts client's `enable({ id })`, then mapping the result to a response or re-throwing the error.

Files:

- `wrappers.dfy`: `Option`, which stands for `undefined`/`null`.
- `alert_draft.dfy` (module `AlertDraft`): the draft, its keys, `InitialAlert` and the reducer.
- `alert_validation.dfy` (module `AlertValidation`): the error merge, the per-action validation, and `Find`, which models `Array.prototype.find`.
- `alert_add.dfy` (module `AlertAdd`): the save protocol.
  - Each handler is a pure step function over the state `Flow(alert, isSaving, confirmOpen, effects)`.
  - The lemmas about these step functions state what the source promises.
  - The class `AlertAddFlyout` holds the same state as fields and has one method per handler. Each method is proved to produce exactly the new state its step function gives.
  - The create call, the toasts and the `onClose`/`reloadAlerts` callbacks are appended to an effect log. `Protocol` is the log invariant: each create call is followed by exactly one toast, and a reload comes right after a close.
  - The class invariant `Valid` is `Protocol` together with `AtRest`: between handlers, `isSaving` is set only while the confirmation dialog is open. The constructor establishes it and every handler method keeps it.
- `enable_route.dfy` (module `EnableRoute`): `HandleEnable` is a pure function. It returns either a response or a re-thrown error, together with the calls made on the alerting context.

Inputs that the source gets from code outside this model are parameters here:

- `isValidAlert` and `validateBaseProperties` are function-valued fields of `Setup`.
- `hasShowActionsCapability(capabilities)` is the boolean `canShowActions`.
- The two type registries are maps, and a missing id looks up to nothing.
- The answer of `createAlert` is a `CreateResponse` argument.
- The license check is a `LicenseCheck` argument.
- The alerts client's `enable` is a function from id to `EnableResult`.

Behaviours of the code that a reader might not expect:

- **The error merge is last-writer-wins.** The code spreads the alert type's errors and then the base-property errors into one object, so on a shared key the base-property messages replace the alert type's. See `MergedErrors` and `BaseErrorsReplaceTypeErrors`.
- **`onSave` does not check validity.** The footer's `onSave` does not look at `hasErrors`: it sets `isSaving` and may open the confirmation dialog for a draft with errors. Only `isValidAlert` inside `onSaveAlert` keeps such a draft from `createAlert`. See `ErroneousDraftNeverCreated`.
- **A missing alert type is not an error.** A falsy `alertTypeId` (unset, null or `""`) or an id the registry does not know contributes no alert-type errors. See `TypeErrors`.

## Model

| member | source | states |
|---|---|---|
| `AlertDraft.InitialAlert` | x-pack/plugins/triggers_actions_ui/public/application/sections/alert_form/alert_add.tsx:50-64 | every key present in `initialValues` takes the caller's value; every other key keeps the default |
| `AlertDraft.InitialAlertWithoutOverrides` | x-pack/plugins/triggers_actions_ui/public/application/sections/alert_form/alert_add.tsx:50-62 | without `initialValues` the draft has `params = {}`, interval `1m`, no actions, no tags, `notifyWhen = onActionGroupChange` and the given consumer and alert type id |
| `AlertDraft.Reduce` | x-pack/plugins/triggers_actions_ui/public/application/sections/alert_form/alert_add.tsx:72-78 | `setAlert` replaces the whole draft; `setProperty` sets its key to the value and leaves every other key unchanged |
| `AlertDraft.SetPropertiesCommute` | x-pack/plugins/triggers_actions_ui/public/application/sections/alert_form/alert_add.tsx:76-78 | setting two different properties gives the same draft in either order |
| `AlertDraft.SetPropertyLastWins` | x-pack/plugins/triggers_actions_ui/public/application/sections/alert_form/alert_add.tsx:76-78 | setting a property twice keeps only the second value |
| `AlertValidation.AlertTypeOf` | x-pack/plugins/triggers_actions_ui/public/application/sections/alert_form/alert_add.tsx:108 | an alert type is found iff `alertTypeId` is set, non-empty and registered, and it is the registry's entry |
| `AlertValidation.TypeErrors` | x-pack/plugins/triggers_actions_ui/public/application/sections/alert_form/alert_add.tsx:108-110 | a truthy, registered `alertTypeId` contributes that type's `validate(params)` errors; an unset, null, empty or unregistered id contributes none |
| `AlertValidation.MergedErrors` | x-pack/plugins/triggers_actions_ui/public/application/sections/alert_form/alert_add.tsx:109-112 | the merged keys are the union of both sources; a base-property key keeps the base messages; a key only the alert type reports keeps the alert type's |
| `AlertValidation.NoAlertTypeMeansBaseErrors` | x-pack/plugins/triggers_actions_ui/public/application/sections/alert_form/alert_add.tsx:108-112 | with the id unset, empty or unregistered, the merged errors equal the base-property errors exactly |
| `AlertValidation.CoveredTypeErrorsVanish` | x-pack/plugins/triggers_actions_ui/public/application/sections/alert_form/alert_add.tsx:109-112 | when the base-property errors have every key the alert type reports, the merged errors are exactly the base-property errors |
| `AlertValidation.BaseErrorsReplaceTypeErrors` | x-pack/plugins/triggers_actions_ui/public/application/sections/alert_form/alert_add.tsx:109-112 | on a key both sources define, only the base-property messages survive |
| `AlertValidation.Find` | x-pack/plugins/triggers_actions_ui/public/application/sections/alert_form/alert_add.tsx:122-126 | the result is the first index whose element satisfies the predicate, and none means no element does |
| `AlertValidation.ValidateAction` | x-pack/plugins/triggers_actions_ui/public/application/sections/alert_form/alert_add.tsx:118 | an action has a validation result iff its action type is registered, and that result is the registered type's `validateParams(params)` |
| `AlertValidation.ActionsErrors` | x-pack/plugins/triggers_actions_ui/public/application/sections/alert_form/alert_add.tsx:115-119 | one optional result per action, at the action's position |
| `AlertValidation.HasActionErrors` | x-pack/plugins/triggers_actions_ui/public/application/sections/alert_form/alert_add.tsx:121-126 | true iff some action of a registered type has a validation result with a key holding at least one message |
| `AlertValidation.UnregisteredActionIgnored` | x-pack/plugins/triggers_actions_ui/public/application/sections/alert_form/alert_add.tsx:117-126 | adding or removing an action of an unregistered type, at any position, never changes `hasActionErrors` |
| `AlertValidation.HasActionErrorsAsWritten` | x-pack/plugins/triggers_actions_ui/public/application/sections/alert_form/alert_add.tsx:121-126 | the flag as written, with each action's `Object.keys` order given: true iff some action has a result whose written `!!...find(...)` test holds; it never flags an error that `HasActionErrors` does not |
| `AlertValidation.ActionsAsWrittenAgreeWithoutEmptyKey` | x-pack/plugins/triggers_actions_ui/public/application/sections/alert_form/alert_add.tsx:121-126 | when no registered action's result holds a message under the key `""`, the written flag equals `HasActionErrors` |
| `AlertValidation.EmptyKeyActionIsMissed` | x-pack/plugins/triggers_actions_ui/public/application/sections/alert_form/alert_add.tsx:121-126 | one action whose validator returns `{"": ["Message is required."]}`: `HasActionErrors` is true, the written flag is false |
| `AlertValidation.FlagsErrors` | x-pack/plugins/triggers_actions_ui/public/application/sections/alert_form/alert_add.tsx:125 | finding a key with a message, in any key order, is exactly "some key holds a message" |
| `AlertValidation.FlagsErrorsAsWritten` | x-pack/plugins/triggers_actions_ui/public/application/sections/alert_form/alert_add.tsx:125 | the written `!!...find(...)` test never reports an error where there is none |
| `AlertValidation.EmptyKeyErrorIsMissed` | x-pack/plugins/triggers_actions_ui/public/application/sections/alert_form/alert_add.tsx:125 | an error object whose only key is `""`, holding a message, is not flagged by the written test |
| `AlertValidation.AsWrittenAgreesWithoutEmptyKey` | x-pack/plugins/triggers_actions_ui/public/application/sections/alert_form/alert_add.tsx:125 | unless the key `""` holds a message, the written test agrees with the intended one |
| `AlertAdd.MountSetup` | x-pack/plugins/triggers_actions_ui/public/application/sections/alert_form/alert_add.tsx:50-64 | the mounted initial draft takes the caller's value for every key in `initialValues` and the default for every other key; the registries, `canShowActions` and the reload callback are kept as given |
| `AlertAdd.IsValid` | x-pack/plugins/triggers_actions_ui/public/application/sections/alert_form/alert_add.tsx:113 | validity is `isValidAlert` on the merged errors (`hasErrors` is its negation); alert-type errors under keys the base-property validator also reports, or no alert type at all, leave only the base-property errors to judge |
| `AlertAdd.ShouldConfirmSave` | x-pack/plugins/triggers_actions_ui/public/application/sections/alert_form/alert_add.tsx:129 | the gate is `canShowActions` with no actions attached; `OnSaveStep` and `OnSaveOutcome` tie it to the dialog opening |
| `AlertAdd.SaveAttempt` | x-pack/plugins/triggers_actions_ui/public/application/sections/alert_form/alert_add.tsx:131-153 | `createAlert` is called once iff `isValidAlert` holds, and never otherwise; each create call gets exactly one toast; a failure gives exactly one danger toast, with the body message or else "Cannot create alert."; a result is returned iff an alert was created |
| `AlertAdd.ProtocolAppend` | x-pack/plugins/triggers_actions_ui/public/application/sections/alert_form/alert_add.tsx:97-106 | appending a well-formed segment that starts with neither a toast nor a reload keeps the log protocol |
| `AlertAdd.CloseStep` | x-pack/plugins/triggers_actions_ui/public/application/sections/alert_form/alert_add.tsx:92-95 | closing resets the draft to the mounted initial draft, logs exactly one more close and no create call, and leaves both flags as they were |
| `AlertAdd.SaveAndCloseStep` | x-pack/plugins/triggers_actions_ui/public/application/sections/alert_form/alert_add.tsx:97-106 | `isSaving` ends false, the dialog flag is kept, and the draft is reset exactly when the draft was valid and an alert was created |
| `AlertAdd.OnSaveStep` | x-pack/plugins/triggers_actions_ui/public/application/sections/alert_form/alert_add.tsx:195-202 | `isSaving` stays set exactly when the save waits on the dialog, which is then open with draft and log unchanged; afterwards `isSaving` implies the dialog is open |
| `AlertAdd.OnConfirmStep` | x-pack/plugins/triggers_actions_ui/public/application/sections/alert_form/alert_add.tsx:209-212 | confirming closes the dialog and runs the save: both flags end false; one create call exactly when the draft is valid; one danger toast when that call fails; one close, then a reload when `reloadAlerts` is given, and the reset draft exactly when an alert was created |
| `AlertAdd.OnConfirmCancelStep` | x-pack/plugins/triggers_actions_ui/public/application/sections/alert_form/alert_add.tsx:213-216 | cancelling the dialog clears both flags, makes no call and keeps the draft |
| `AlertAdd.SaveAndCloseOutcome` | x-pack/plugins/triggers_actions_ui/public/application/sections/alert_form/alert_add.tsx:92-106 | after a save attempt `isSaving` is false; only a created alert resets the draft, closes the flyout exactly once and reloads when `reloadAlerts` is given; otherwise the draft is kept and nothing is closed |
| `AlertAdd.OnSaveOutcome` | x-pack/plugins/triggers_actions_ui/public/application/sections/alert_form/alert_add.tsx:195-202 | `onSave` sets `isSaving`; with `canShowActions` and no actions it only opens the dialog; otherwise it saves at once and `isSaving` ends false |
| `AlertAdd.ErroneousDraftNeverCreated` | x-pack/plugins/triggers_actions_ui/public/application/sections/alert_form/alert_add.tsx:131-144 | for a draft with errors, neither `onSave` nor `onConfirm` appends any effect or changes the draft, though `onSave` still sets `isSaving` when it opens the dialog |
| `AlertAdd.StepsKeepProtocol` | x-pack/plugins/triggers_actions_ui/public/application/sections/alert_form/alert_add.tsx:92-106 | every handler keeps the effect-log protocol |
| `AlertAdd.SaveKeepsProtocol` | x-pack/plugins/triggers_actions_ui/public/application/sections/alert_form/alert_add.tsx:97-106 | a save attempt, with its close and reload, keeps the effect-log protocol |
| `AlertAdd.ConfirmThenCancel` | x-pack/plugins/triggers_actions_ui/public/application/sections/alert_form/alert_add.tsx:195-216 | with no actions and `canShowActions`, save opens the dialog and cancel returns to both flags false with no call |
| `AlertAdd.ConfirmThenCreated` | x-pack/plugins/triggers_actions_ui/public/application/sections/alert_form/alert_add.tsx:195-212 | save, confirm and a created "My Alert" give one create call, a success toast naming it, a close and the reset draft |
| `AlertAdd.ActionAttachedSavesDirectly` | x-pack/plugins/triggers_actions_ui/public/application/sections/alert_form/alert_add.tsx:129 | with an action attached and a valid draft, `onSave` makes exactly one create call at once, whatever `canShowActions` is, and `isSaving` ends false |
| `AlertAdd.AlertAddFlyout.constructor` | x-pack/plugins/triggers_actions_ui/public/application/sections/alert_form/alert_add.tsx:50-70 | the flyout starts from the mounted draft, with both flags false and an empty log, so `Valid` holds |
| `AlertAdd.AlertAddFlyout.Dispatch` | x-pack/plugins/triggers_actions_ui/public/application/sections/alert_form/alert_add.tsx:66-78 | the new draft is the reducer applied to the old one; `Valid` is kept |
| `AlertAdd.AlertAddFlyout.SyncAlertTypeId` | x-pack/plugins/triggers_actions_ui/public/application/sections/alert_form/alert_add.tsx:88-90 | the draft's `alertTypeId` becomes the prop's value, or null when the prop is unset; `Valid` is kept |
| `AlertAdd.AlertAddFlyout.CloseFlyout` | x-pack/plugins/triggers_actions_ui/public/application/sections/alert_form/alert_add.tsx:92-95 | the draft is reset to the initial draft and `onClose` is logged |
| `AlertAdd.AlertAddFlyout.OnSaveAlert` | x-pack/plugins/triggers_actions_ui/public/application/sections/alert_form/alert_add.tsx:131-153 | appends exactly the effects of `SaveAttempt`, returns its result and keeps the log protocol |
| `AlertAdd.AlertAddFlyout.SaveAlertAndCloseFlyout` | x-pack/plugins/triggers_actions_ui/public/application/sections/alert_form/alert_add.tsx:97-106 | the new state is `SaveAndCloseStep` of the old one |
| `AlertAdd.AlertAddFlyout.OnSave` | x-pack/plugins/triggers_actions_ui/public/application/sections/alert_form/alert_add.tsx:195-202 | the new state is `OnSaveStep` of the old one |
| `AlertAdd.AlertAddFlyout.OnConfirm` | x-pack/plugins/triggers_actions_ui/public/application/sections/alert_form/alert_add.tsx:209-212 | the new state is `OnConfirmStep` of the old one |
| `AlertAdd.AlertAddFlyout.OnConfirmCancel` | x-pack/plugins/triggers_actions_ui/public/application/sections/alert_form/alert_add.tsx:213-216 | the new state is `OnConfirmCancelStep` of the old one |
| `EnableRoute.HandleEnable` | x-pack/plugins/alerts/server/routes/enable.ts:38-54 | a license denial is re-thrown before anything else; a missing alerting context gives 400 "RouteHandlerContext is not registered for alerting" with no client call; otherwise the client is obtained and `enable` called once with the path id; success gives 204; an `AlertTypeDisabledError` gives its own response; any other error is re-thrown unchanged |
| `EnableRoute.ErrorsPassThrough` | x-pack/plugins/alerts/server/routes/enable.ts:39-52 | every re-thrown error is the license error or the very error `enable` threw; every response is the 400, the 204 or the disabled-type error's own response |
| `EnableRoute.OnlyRequestedIdMatters` | x-pack/plugins/alerts/server/routes/enable.ts:43-46 | the outcome depends on the alerts client only through its answer for the requested id |
| `EnableRoute.EnableSucceeds` | x-pack/plugins/alerts/server/routes/enable.ts:43-47 | with id "1", the license granted, the context registered and `enable` resolving, the response is 204 with an empty body |

## Left out

- Rendering, the flyout, `HealthCheck`, `HealthContextProvider` and `AlertForm` are left out; they are presentation.
- Message formatting is left out. The success toast records the alert's name, not the translated sentence. The fallback danger text is the constant "Cannot create alert.".
- React scheduling is not modelled:
  - The `alertTypeId` effect is an explicit method, `SyncAlertTypeId`.
  - `useMemo` is not re-run when props change after mount; the initial draft is computed once, by the constructor.
  - Asynchrony is not modelled; every handler runs to completion.
  - Interleaved clicks are not modelled. The footer disables its button while `isSaving` is set; that is presentation, so the model lets `OnSave` be called in any state.
- `alertReducer` is modelled only through its two commands used here. `setProperty` is a single-field replacement, and null can be set only on the nullable fields: name, `alertTypeId`, `notifyWhen` and `throttle`.
- Draft fields other than the nine in `Alert` (for example `enabled`) are not modelled.
- Parameter values are strings, because only the opaque validators read them.
- Error objects map a key to a list of messages. Nested error objects are not modelled.
- `isValidAlert` and `validateBaseProperties` are arbitrary functions; their rules are not part of this model.
- `alertTypeRegistry.get` is modelled as an optional lookup, and what it may throw is left out.
- The `createAlert` HTTP request is left out; its answer is an input.
- The promise returned by `reloadAlerts` is not awaited by the source and is not modelled.
- A toast call that throws inside the `try` block of `onSaveAlert` is not modelled; toast delivery is treated as a log append.
- Route registration is left out: `router.post`, the path, the `schema` validation, and the `handleDisabledApiKeysError` and `handleLegacyErrors` wrappers.
- The internals of `verifyApiAccess` are left out; the check is an input that passes or throws.
- The alerts client's own behaviour is left out; `enable` is an input function.
- The response built by `AlertTypeDisabledError.sendResponse` is left out; the error value carries it.
- `value_axis_options.test.tsx` and `load_index_pattern.test.ts` are not part of this model. They test widget props and a thin adapter, and have no logic of this workflow.

## Findings

| source | as written | input that shows it | evidently intended | confidence | as-written member | corrected member |
|---|---|---|---|---|---|---|
| x-pack/plugins/triggers_actions_ui/public/application/sections/alert_form/alert_add.tsx:125 | `!!Object.keys(errors).find(...)` turns the found key into a boolean, and the key `""` is falsy | one action whose validator returns `{ "": ["Message is required."] }`: `hasActionErrors` is false although the action has an error (`EmptyKeyActionIsMissed`, `EmptyKeyErrorIsMissed`) | an action has errors iff some key of its result holds a message, whatever the key's name | low: not executed; needs a validator that reports under the key `""` | `AlertValidation.HasActionErrorsAsWritten` | `AlertValidation.HasActionErrors` |

`HasActionErrorsAsWritten` is built on the per-action test as written, `FlagsErrorsAsWritten`. The corrected `HasActionErrors` uses `HasMessages`, which `FlagsErrors` is proved equal to for every key order. The two flags agree unless some result holds a message under `""` (`ActionsAsWrittenAgreeWithoutEmptyKey`).
