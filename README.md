# Dashboard settings synchronisation and page rules, in Dafny

This project models the logic of the operator dashboard of a robotics platform: the parts of its
pages that decide something rather than lay out markup.

- **Training page** (`training.dfy`, module `Training`). The training-parameter editor is a slot of
  text tied to the storage key `training-params-<dataset>-<modelType>`. A change of key empties it,
  an empty slot is seeded from the fetched training info whenever it is empty, and a reset drops the localStorage
  entry and re-reads the info. Submitting checks the dataset, the Hugging Face token and the JSON
  text in that order, then posts either `/training/start` or `/training/start-custom`. The Train
  button moves through idle, loading and success. The page is the class `TrainingPage`. Each
  effect and handler is a method whose postcondition ties the new state to a pure function
  (`AfterKeyChange`, `Seeded`, `PlanTraining`, `StateAfterPlan`), and the lemmas are about those
  functions.
- **Admin settings page** (`admin_settings.dfy`, module `AdminSettings`). It has three validators
  and a per-field update. The update records the validator's verdict but stores the value anyway.
  A PRO gate forces private mode off. Auto-save skips its first run and then posts the whole
  settings object only while no error is recorded. The fields are the datatype `Settings`, a
  change is the tagged union `Change`, and the page is the class `AdminPage`. Its invariant
  says that a field with an empty recorded error holds a valid value.
- **VR control page** (`vr_control.dfy`, module `VRControl`). This is the debounced, optimistic
  write-back of the teleop settings. An update replaces the cached settings at once and re-arms a
  single timer slot. When the timer fires, it posts only the `{key: value}` of the latest update.
  Once that post settles, the card revalidates. Several posts may be awaited at once. The class
  `TeleopSettingsSync` mirrors the pure transitions `AfterUpdate`, `AfterFire` and
  `AfterPostSettles`.
- **Top bar** (`topbar.dfy`, module `TopBar`). The route table and its first-match lookup.
- **Sign-in/sign-up form** (`auth_form.dfy`, module `AuthForm`). The title, subtitle, link
  and submit action are chosen by substring tests on the pathname. The class `Form` models the
  `isLoading` bracket around the account call.
- Support modules: `Wrappers` (Option), `Strings` (`startsWith`, `includes`), `JsValues` (JSON
  values, JavaScript truthiness and property access).

Opaque library calls are parameters of the model: `JSON.parse`, `JSON.stringify`,
`encodeURIComponent` and the slider mapping `sliderToScaling`. Data the pages receive from SWR
hooks and the auth context are method parameters: the training info, whether a Hugging Face token
is set, `proUser` and `hf_private_mode`. An `await` between two observable states splits a handler
into two methods: the part up to the request, and its continuation once the request settles.
Timer callbacks are methods that the environment calls.

Four behaviours of the code that a reader may not expect:

- The seed effect does not look at the info's `status` (AITrainingPage.tsx:151-173). A body carrying
  `training_params` seeds the editor even when the status is `error` (`Training.ErrorAnswerStillSeeds`).
- The seed effect runs on every change of the editor text (AITrainingPage.tsx:174-180), so the
  editor is seeded whenever it is empty, not once: deleting all the text brings the fetched
  parameters back at once (`Training.ClearedEditorIsReseeded`).
- A timer posts only the key and value of the call that armed it (VRControlPage.tsx:88). It does not
  post every field changed since the last write, so an earlier update to another key in the same
  window is never posted (`VRControl.TwoKeysPostOnlyTheLast`).
- A change of storage key empties the editor even when localStorage holds text for the new key
  (AITrainingPage.tsx:142-148). Cached text wins over the fetched parameters only at mount
  (`Training.MountThenSeed`).

## Model

| member | source | states |
|---|---|---|
| `Training.StorageKey` | dashboard/src/pages/AITrainingPage.tsx:133 | the key of a selection starts with `training-params-`, is longer than the prefix and the dataset together, and ends with the model type's name |
| `Training.StorageKeyLayout` | dashboard/src/pages/AITrainingPage.tsx:133 | the key is `training-params-`, then the dataset, a dash and the model type's name: the dataset sits right after the prefix and the key ends as the name ends |
| `Training.StorageKeyInjective` | dashboard/src/pages/AITrainingPage.tsx:133 | two selections get the same storage key if and only if they have the same dataset and the same model type, so no two identities share a slot |
| `Training.InfoFetchKey` | dashboard/src/pages/AITrainingPage.tsx:113-115 | the training-info read exists exactly for the custom type or a non-empty dataset, and is keyed by (dataset, model type) |
| `Training.SeedSource` | dashboard/src/pages/AITrainingPage.tsx:151-173 | the seed comes from truthy `training_params` for structured types; for `custom` it is the whole `training_body`, once `custom_command` is truthy; no info means no seed |
| `Training.Seeded` | dashboard/src/pages/AITrainingPage.tsx:151-173 | an empty editor takes the serialised seed source when there is one and stays "" when there is none |
| `Training.SeedNeverOverwrites` | dashboard/src/pages/AITrainingPage.tsx:155 | seeding never replaces non-empty editor text |
| `Training.SeedIsIdempotent` | dashboard/src/pages/AITrainingPage.tsx:151-180 | re-running the seed effect with no change of text in between changes nothing |
| `Training.CustomSeedIsWholeBody` | dashboard/src/pages/AITrainingPage.tsx:162-172 | for `custom`, an empty editor gets stringify of the whole body, not of `custom_command`, whatever the status and message |
| `Training.ErrorAnswerStillSeeds` | dashboard/src/pages/AITrainingPage.tsx:151-160 | for every structured model type, any message and any body with truthy `training_params`, an answer with status `error` still seeds an empty editor with those parameters |
| `Training.AfterKeyChange` | dashboard/src/pages/AITrainingPage.tsx:142-148 | a different key empties the text and becomes the previous key; an equal key leaves the text unchanged |
| `Training.KeyChangeIsIdempotent` | dashboard/src/pages/AITrainingPage.tsx:142-148 | running the key-change effect again right away is a no-op |
| `Training.SwitchThenSeedForgetsOldText` | dashboard/src/pages/AITrainingPage.tsx:142-173 | after a switch of selection and a seed, the text is the new identity's seed, or "" when there is none, whatever the old text was |
| `Training.CustomCommand` | dashboard/src/pages/AITrainingPage.tsx:233 | the custom command is the parsed `custom_command` when truthy, otherwise the raw editor text |
| `Training.PlanTraining` | dashboard/src/pages/AITrainingPage.tsx:182-236 | gives each refusal (no dataset, no token, unparsable text, `null` parsed for custom) under exactly its condition, in source order; otherwise a start request of the right shape with `user_hf_token` null and `private_mode = proUser && hf_private_mode` |
| `Training.StateAfterPlan` | dashboard/src/pages/AITrainingPage.tsx:183-209 | the button shows loading exactly after a sent request, or when it already did and the handler returned early; a refusal leaves the state as it was or sets idle, and an unparsable text or a `null` custom command sets idle |
| `Training.PlannedRequestsAreWellFormed` | dashboard/src/pages/AITrainingPage.tsx:216-236 | a sent request is a start request; a structured start names a non-empty dataset and carries no token |
| `Training.TrainDisabled` | dashboard/src/pages/AITrainingPage.tsx:472-477 | the Train button is enabled exactly when no start is loading, the selection has a training-info read, and that read is neither loading nor answered with status `error` |
| `Training.EnabledButtonPassesDatasetCheck` | dashboard/src/pages/AITrainingPage.tsx:472-477 | an enabled Train button implies a training-info read exists and the dataset check passes; loading always disables it |
| `Training.TrainingPage.constructor` | dashboard/src/pages/AITrainingPage.tsx:133-139 | on mount the editor holds the localStorage entry for the current key ("" if none), and the previous key is the current one |
| `Training.TrainingPage.SelectDataset` | dashboard/src/pages/AITrainingPage.tsx:302-304 | the dataset selection is replaced |
| `Training.TrainingPage.SelectModelType` | dashboard/src/pages/AITrainingPage.tsx:317-327 | the model type selection is replaced |
| `Training.TrainingPage.EditorChanged` | dashboard/src/pages/AITrainingPage.tsx:455 | the editor's change handler replaces the text |
| `Training.TrainingPage.KeyChangeEffect` | dashboard/src/pages/AITrainingPage.tsx:142-148 | text and previous key become `AfterKeyChange` of the old values and the current key |
| `Training.TrainingPage.SeedEffect` | dashboard/src/pages/AITrainingPage.tsx:151-173 | the text becomes `Seeded` of the old text, the model type and the delivered info |
| `Training.TrainingPage.Persist` | dashboard/src/pages/AITrainingPage.tsx:139 | the storage hook's write-back stores the text under the current key |
| `Training.TrainingPage.Reset` | dashboard/src/pages/AITrainingPage.tsx:423-433 | the current key's entry is removed, the text is "", and a re-read of the same (dataset, model type) is issued when that read exists |
| `Training.TrainingPage.HandleTrainModel` | dashboard/src/pages/AITrainingPage.tsx:182-237 | the outcome is `PlanTraining` of the current state, and the button state is `StateAfterPlan`; exactly the planned request is logged, and it is recorded as outstanding; the invariants are kept |
| `Training.TrainingPage.StartResponseArrives` | dashboard/src/pages/AITrainingPage.tsx:239-276 | a falsy or thrown response means idle; a response means success plus one armed idle timer; a custom start with a message shows its log |
| `Training.TrainingPage.IdleTimerFires` | dashboard/src/pages/AITrainingPage.tsx:257-259 | the timer returns the button to idle |
| `Training.MountThenSeed` | dashboard/src/pages/AITrainingPage.tsx:136-173 | cached non-empty text survives mount and a later seed |
| `Training.ClearedEditorIsReseeded` | dashboard/src/pages/AITrainingPage.tsx:151-180 | whatever the user typed, clearing the editor while a seed source exists brings the serialised seed back at the next run of the effect |
| `JsValues.Member` | dashboard/src/pages/AITrainingPage.tsx:154 | reading `training_params` or `custom_command` gives an object's own field, and `undefined` for a missing field or a non-object |
| `JsValues.Truthy` | dashboard/src/pages/AITrainingPage.tsx:154-163 | a JSON value is falsy exactly when it is `null`, `false`, `0` or `""` |
| `JsValues.TruthyOpt` | dashboard/src/pages/AITrainingPage.tsx:233 | a value that may be `undefined` is falsy exactly when it is `undefined` or one of the four falsy JSON values |
| `AdminSettings.MatchesDatasetPattern` | dashboard/src/pages/AdminSettingsPage.tsx:64-65 | the regex test holds if and only if the name is non-empty and every character is in `[a-zA-Z0-9._-]` |
| `AdminSettings.ValidateDatasetName` | dashboard/src/pages/AdminSettingsPage.tsx:63-68 | returns "" exactly for a non-empty name over `[a-zA-Z0-9._-]`, and the dataset message otherwise |
| `AdminSettings.ValidateFrequency` | dashboard/src/pages/AdminSettingsPage.tsx:69-70 | returns "" if and only if the frequency is positive, and the frequency message otherwise |
| `AdminSettings.ValidateVideoSize` | dashboard/src/pages/AdminSettingsPage.tsx:71-72 | returns "" if and only if both dimensions are positive, and the size message otherwise |
| `AdminSettings.ChangeError` | dashboard/src/pages/AdminSettingsPage.tsx:98-122 | the recorded error is "" or one of the page's four messages, and it is always "" for `task_instruction`, `video_codec` and `episode_format`, which have no validator |
| `AdminSettings.StoredChange` | dashboard/src/pages/AdminSettingsPage.tsx:113-118 | the stored change writes the same field; it differs from the requested one exactly when a user without PRO turns private mode on, and such a user never stores private mode on |
| `AdminSettings.Apply` | dashboard/src/pages/AdminSettingsPage.tsx:123 | a change sets exactly its own field to its own value, and every other field is unchanged |
| `AdminSettings.StoredDespiteError` | dashboard/src/pages/AdminSettingsPage.tsx:98-123 | outside the private-mode gate, the value is stored as given even when its validator rejects it |
| `AdminSettings.ErrorMatchesStoredValue` | dashboard/src/pages/AdminSettingsPage.tsx:98-123 | an empty recorded error means the stored field is valid; for the three validated fields the converse holds too |
| `AdminSettings.PrivateModeGate` | dashboard/src/pages/AdminSettingsPage.tsx:113-118 | without PRO, enabling private mode stores false and records the PRO message; with PRO, it stores true with no error |
| `AdminSettings.PrivateModeOffKeepsOtherFields` | dashboard/src/pages/AdminSettingsPage.tsx:89 | forcing private mode off changes no other field |
| `AdminSettings.AdminPage.constructor` | dashboard/src/pages/AdminSettingsPage.tsx:45-48 | the page starts unloaded, with no errors and the first-run flag set |
| `AdminSettings.AdminPage.SettingsArrive` | dashboard/src/pages/AdminSettingsPage.tsx:51-55 | the first settings read fills the cache and keeps the invariant |
| `AdminSettings.AdminPage.HandleSettingChange` | dashboard/src/pages/AdminSettingsPage.tsx:93-124 | a no-op while unloaded; otherwise it stores the gated value and records the change's error under its key only; the invariant is kept |
| `AdminSettings.AdminPage.AutoSaveEffect` | dashboard/src/pages/AdminSettingsPage.tsx:75-83 | nothing while unloaded; the first loaded run clears the flag and posts nothing; later runs post the full settings if and only if every recorded error is empty (`NoErrors`, the `!Object.values(validationErrors).some((e) => e)` test at line 80), and each post is valid in every recorded field |
| `AdminSettings.AdminPage.ForcePrivateModeOffEffect` | dashboard/src/pages/AdminSettingsPage.tsx:86-91 | for a non-PRO user with private mode on, the settings become the same record with private mode off; otherwise nothing changes |
| `VRControl.DisplayedScaling` | dashboard/src/pages/control/VRControlPage.tsx:203 | the expression at line 203 gives the cached `vr_scaling`, or 1.0 when the settings are absent or have no `vr_scaling` |
| `VRControl.ScalingShownAtOnce` | dashboard/src/pages/control/VRControlPage.tsx:77-80 | the slider starts at 1.0, and after a scaling update it shows the new value before any write |
| `VRControl.AfterUpdate` | dashboard/src/pages/control/VRControlPage.tsx:75-87 | an update sends nothing, leaves the awaited posts alone, and never loads or drops the cached settings |
| `VRControl.AfterFire` | dashboard/src/pages/control/VRControlPage.tsx:87-89 | firing leaves the cache alone and frees the slot; the one request sent is a post whose payload holds only the armed key, with the armed value, and that payload is now awaited |
| `VRControl.AfterPostSettles` | dashboard/src/pages/control/VRControlPage.tsx:89-91 | settling removes that post from the awaited ones and keeps the others in order; the cache and the timer slot are untouched; one revalidation is appended unless the post rejected |
| `VRControl.AfterRevalidation` | dashboard/src/pages/control/VRControlPage.tsx:91 | after a revalidation the slider expression follows the server's `vr_scaling` (1.0 if absent); the timer slot, the awaited posts and the requests are unchanged |
| `VRControl.UpdateWithoutSettingsIsNoOp` | dashboard/src/pages/control/VRControlPage.tsx:75 | without settings an update changes nothing and arms no timer |
| `VRControl.UpdateIsOptimistic` | dashboard/src/pages/control/VRControlPage.tsx:77-87 | after an update the cache has only that key changed, the timer slot holds exactly this update, and nothing is sent yet |
| `VRControl.BurstLeavesOnePendingWrite` | dashboard/src/pages/control/VRControlPage.tsx:77-87 | after any burst of updates the cache shows all of them in order, the single timer slot holds the last one, and nothing is sent or awaited |
| `VRControl.BurstPostsOnce` | dashboard/src/pages/control/VRControlPage.tsx:83-92 | a burst followed by the timer sends exactly one post, carrying the last key and value. Once it settles, one revalidation follows, unless the post was rejected |
| `VRControl.TwoKeysPostOnlyTheLast` | dashboard/src/pages/control/VRControlPage.tsx:77-92 | two different keys updated within one window both reach the cache, but only the second key is posted |
| `VRControl.StaleRevalidationCanHideNewerValue` | dashboard/src/pages/control/VRControlPage.tsx:77-92 | two windows on one key leave two posts awaited. The first post's revalidation can bring back the first value over the newer one the cache showed |
| `VRControl.NoRollback` | dashboard/src/pages/control/VRControlPage.tsx:79-91 | after the post is sent and after it settles, succeeded or rejected, the cache still holds the updated value |
| `VRControl.TeleopSettingsSync.constructor` | dashboard/src/pages/control/VRControlPage.tsx:61-68 | the cache starts from the fallback `{vr_scaling: 1.0}`, with no timer and nothing sent |
| `VRControl.TeleopSettingsSync.UpdateTeleopSetting` | dashboard/src/pages/control/VRControlPage.tsx:70-95 | the new state is `AfterUpdate` of the old one |
| `VRControl.TeleopSettingsSync.TimerFires` | dashboard/src/pages/control/VRControlPage.tsx:87-89 | the new state is `AfterFire`: post `{key: value}`, record it as awaited, and empty the slot |
| `VRControl.TeleopSettingsSync.PostSettles` | dashboard/src/pages/control/VRControlPage.tsx:89-91 | the new state is `AfterPostSettles`: the settled post is no longer awaited, and a revalidation is requested unless the post rejected |
| `VRControl.TeleopSettingsSync.RevalidationArrives` | dashboard/src/pages/control/VRControlPage.tsx:91 | the revalidated server settings replace the cache |
| `VRControl.TeleopSettingsSync.HandleScalingChange` | dashboard/src/pages/control/VRControlPage.tsx:97-101 | only the first slider value, after the mapping, is forwarded as an update of `vr_scaling`, and the slider then shows it |
| `VRControl.TwoUpdatesOneWindow` | dashboard/src/pages/control/VRControlPage.tsx:70-95 | a concrete run: two keys within one window send a single post of the second key, then one revalidation once it settles, and the cache shows both |
| `TopBar.Matches` | dashboard/src/components/layout/topbar.tsx:130 | every row matches its own path; a matched path begins with the row's path, and equals it for a row without `isPrefix` |
| `TopBar.FindIndex` | dashboard/src/components/layout/topbar.tsx:129-131 | the result is the first row, in table order, whose predicate holds; none exactly when no row matches |
| `TopBar.MatchedRoute` | dashboard/src/components/layout/topbar.tsx:129-131 | the matched route is a row of the table whose predicate holds, and there is none exactly when no row matches |
| `TopBar.MatchedTitle` | dashboard/src/components/layout/topbar.tsx:140 | a title is shown exactly when some row matches, and it is the title of a matching row |
| `TopBar.PathsDistinct` | dashboard/src/components/layout/topbar.tsx:32-42 | the table's paths are pairwise distinct |
| `TopBar.ExactRowMatchesOnlyItsPath` | dashboard/src/components/layout/topbar.tsx:129-131 | a row without `isPrefix` is chosen if and only if the path equals its own |
| `TopBar.RootIsExact` | dashboard/src/components/layout/topbar.tsx:33 | the "Dashboard" title is shown for `/` and for no other path |
| `TopBar.ExactRowsTitleThemselves` | dashboard/src/components/layout/topbar.tsx:32-42 | looking up an exact row's own path gives that row's title |
| `TopBar.BrowseIsPrefix` | dashboard/src/components/layout/topbar.tsx:41 | every path starting with `/browse` is titled "Browse Datasets" |
| `TopBar.UnlistedPathHasNoTitle` | dashboard/src/components/layout/topbar.tsx:140 | `/train` and `/control/` get no title |
| `Strings.StartsWith` | dashboard/src/components/layout/topbar.tsx:130 | `startsWith` holds exactly when the prefix fits and agrees with the string character by character, that is, when it occurs at position 0 |
| `Strings.Includes` | dashboard/src/pages/auth/AuthForm.tsx:22 | `includes` holds if and only if the fragment occurs at some position |
| `AuthForm.Title` | dashboard/src/pages/auth/AuthForm.tsx:21-29 | `sign-in` is tested before `sign-up`; a path with neither is titled "Welcome to Roboseasy" |
| `AuthForm.Subtitle` | dashboard/src/pages/auth/AuthForm.tsx:31-36 | the account-creation subtitle is shown if and only if the path contains `sign-up` |
| `AuthForm.AlternateLink` | dashboard/src/pages/auth/AuthForm.tsx:139-152 | the link goes to `/sign-up` if and only if the path contains `sign-in`, and to `/sign-in` otherwise |
| `AuthForm.SubmitAction` | dashboard/src/pages/auth/AuthForm.tsx:49-65 | `sign-up` is tested before `sign-in`; at most one call; a path with neither makes none |
| `AuthForm.ReturnPath` | dashboard/src/pages/auth/AuthForm.tsx:18 | a sign-in returns to a non-empty `from` path, and to `/` when `from` is absent or empty |
| `AuthForm.ConfirmUrl` | dashboard/src/pages/auth/AuthForm.tsx:54 | a sign-up goes to `/sign-up/confirm?email=` followed by the encoded email |
| `AuthForm.LinkLeadsToOtherForm` | dashboard/src/pages/auth/AuthForm.tsx:139-152 | following the link lands on a form that makes the other account call |
| `AuthForm.FormIsConsistent` | dashboard/src/pages/auth/AuthForm.tsx:21-65 | on a path naming exactly one form, title, subtitle, link and call all describe that form |
| `AuthForm.BothFragmentsDisagree` | dashboard/src/pages/auth/AuthForm.tsx:21-65 | every path naming both forms is titled for sign-in, keeps the sign-up subtitle, links to `/sign-up`, and its submit signs up |
| `AuthForm.SomePathNamesBothForms` | dashboard/src/pages/auth/AuthForm.tsx:22-25 | such paths exist: `/sign-in/sign-up` contains both fragments |
| `AuthForm.Form.constructor` | dashboard/src/pages/auth/AuthForm.tsx:11-13 | empty inputs, not loading |
| `AuthForm.Form.SetEmail` | dashboard/src/pages/auth/AuthForm.tsx:99 | the email input's change handler replaces the email |
| `AuthForm.Form.SetPassword` | dashboard/src/pages/auth/AuthForm.tsx:108 | the password input's change handler replaces the password |
| `AuthForm.Form.HandleSubmit` | dashboard/src/pages/auth/AuthForm.tsx:38-65 | empty credentials give an error toast with no call and `isLoading` false; otherwise exactly the chosen call is made and `isLoading` stays true until it settles; a path naming neither form makes no call |
| `AuthForm.Form.CallSettles` | dashboard/src/pages/auth/AuthForm.tsx:48-71 | success toasts and navigates (confirm URL after sign-up, `from` after sign-in), failure toasts an error, and `isLoading` is false on every path |

## Left out

- `useLocalStorageState` (dashboard/src/lib/hooks) is not part of this model. The model reads the
  entry at mount, and `TrainingPage.Persist` stands for the hook's write-back. When and how
  often the hook writes is not modelled.
- SWR: fetching, caching and deduplication. The page receives the data as method parameters.
  The `info` passed to `TrainingPage.SeedEffect` is not tied to the current selection. The
  caller is trusted to pass the answer for the current key.
- Timers are methods that the environment calls. The 150 ms and 500 ms delays are not modelled.
  The `await mutateSettings(updatedSettings, false)` at VRControlPage.tsx:80 is not split. The
  update and the re-armed timer form one step.
- `JSON.parse`, `JSON.stringify`, `encodeURIComponent` and the logarithmic slider mapping
  (`sliderToScaling`/`scalingToSlider`, VRControlPage.tsx:35-59) are floating point or library
  code. They are opaque parameters. Numbers are modelled as `real`, so rounding is not modelled,
  and an input that `+e.target.value` turns into NaN is not covered.
- Toasts and `console.error` of the training page, and the model-type lightbulb, are not modelled; the refusal reasons of `PlanTraining` stand for its error toasts. The auth form's toasts are among its effects.
- `TrainingPage.HandleTrainModel`: when the admin settings are not loaded, the model sends
  `private_mode` false. The source sends `undefined`, which serialises as an absent field.
- `TeleopSettingsSync.UpdateTeleopSetting` reads the current cache. The source's callback reads the
  `settings` of the render that created it, so two updates inside one render are not modelled.
- DisplayedScaling models the slider's value expression at VRControlPage.tsx:203 only. For loaded
  settings without `vr_scaling` the label at VRControlPage.tsx:175 calls `toFixed` on `undefined`
  and throws during render, so the page shows nothing; the model does not capture that failure.
- `TeleopSettingsSync.RevalidationArrives` takes a settings object. A read that answers nothing is
  not modelled, so the `if (!settings) return` guard (VRControlPage.tsx:75) only appears in
  `UpdateWithoutSettingsIsNoOp`.
- `Form.HandleSubmit` requires that no call is outstanding. The button and both inputs are
  disabled while `isLoading`, so the page cannot submit twice.
- `AdminPage.SettingsArrive` models only the first read of the admin settings. The page turns off
  revalidation on focus and reconnect, so a later re-read is not modelled.
- The `AdminSettings` type holds more than the seven fields the page edits. Those other fields
  are not part of this model.
- The sidebar (`app-sidebar.tsx`, `sidebar.tsx`) and the VR callout (`phospho-vr.tsx`) are
  declarative markup. Rendering, styling, tooltips, the log stream and the embedded video are left out.
