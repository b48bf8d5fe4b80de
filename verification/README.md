# Series editor footer: a Dafny model

Sonarr's series editor lets the user select several series and bulk-edit them
from a footer bar. The footer (`SeriesEditorFooter`) is a React component.
Under its markup it is a small state machine:

- It keeps one pending override per editable field (monitored, quality
  profile, language profile, series type, season folder, root folder). Each
  override is either the `noChange` sentinel or the raw value the user picked.
- It saves each picked value at once, as a one-key payload handed to
  `onSaveSelected`.
- It clears all overrides, and the "tags are being saved" flag, when a save
  finishes without an error. It detects this by comparing the previous
  `isSaving` prop with the current one.
- It tracks whether the Set Tags and Delete modals are open.
- It derives per-field saving indicators and the enable/disable gates of its
  pickers and buttons from its props and state.

The model writes this machine as pure functions:

- `js_values.dfy` (`JsValues`): the JavaScript values involved. Picked raw
  values are strings or numbers. Payload values can also be booleans or
  number arrays. On strings, numbers and booleans, equality on `JsValue` is
  JavaScript's `===`. Arrays are compared by content, not by reference; the
  footer only compares raw values with string literals.
- `editor_state.dfy` (`EditorState`): the nine-part component state, the
  initial state, and field access `Get`/`Put`.
- `editor_footer.dfy` (`EditorFooter`): the props and the events. It holds each
  handler (`onInputChange`, `onApplyTagsPress`, the four modal handlers,
  `componentDidUpdate`) as a function returning the next state and the
  payload it hands to `onSaveSelected`. `Step` joins them.
- `editor_view.dfy` (`EditorView`): the non-markup part of `render`. This
  covers indicators, disabled/spinning flags, what the modals receive, and
  the two option lists the footer builds itself.
- `editor_trace.dfy` (`EditorTrace`): `Run` replays a sequence of events.
  `RunState` proves it equal to independent "most recent write" definitions
  of every part of the state.

The Organize button's press is forwarded unchanged to `onOrganizeSeriesPress`.
It is modelled as an event that leaves the state alone and emits an
`OrganizeSeries` effect.

Some of the code's behaviour is not what its option lists and labels suggest:

- Choosing the raw value `monitored` does save `{ monitored: true }`. Only the
  option list marks that choice disabled. The handler itself has no special
  case.
- The per-field saving indicators are not forced off when nothing is
  selected.
- `languageProfileId` is tracked and reset whether or not
  `showLanguageProfile` is set. The flag only decides whether its row is
  rendered.
- Set Tags is disabled by an empty selection or by `isOrganizingSeries`, not by
  `isSaving`. It only spins while saving.
- Completion is one global edge on `isSaving`. It is not tracked per dispatch.

## Model

| member | source | states |
|---|---|---|
| EditorState.Init | frontend/src/Series/Editor/SeriesEditorFooter.js:26-36 | initially every one of the six overrides is `noChange`, tags are not being saved and both modals are closed |
| EditorState.FieldKeyDistinct | frontend/src/Series/Editor/SeriesEditorFooter.js:26-36 | the six state keys are pairwise distinct and differ from the `tags`/`applyTags` keys, so a field payload and a tags payload never share a key |
| EditorState.State.Put | frontend/src/Series/Editor/SeriesEditorFooter.js:62 | `setState({ [name]: value })` records the value under that field, leaves every other override as it was and touches no flag |
| EditorState.PutPut | frontend/src/Series/Editor/SeriesEditorFooter.js:62 | recording a field twice keeps only the later value |
| EditorState.PutCommutes | frontend/src/Series/Editor/SeriesEditorFooter.js:62 | recordings for different fields commute: setting one override never affects another |
| EditorState.PutGet | frontend/src/Series/Editor/SeriesEditorFooter.js:62 | recording the value a field already holds leaves the state unchanged |
| EditorFooter.OnInputChange | frontend/src/Series/Editor/SeriesEditorFooter.js:61-78 | the raw value is stored verbatim under its field and no other override or flag changes; no payload iff the value is `noChange`; otherwise exactly one payload with the single key of the field, holding `value === 'monitored'` for monitored, `value === 'yes'` for season folder and the raw value for the rest |
| EditorFooter.OnApplyTagsPress | frontend/src/Series/Editor/SeriesEditorFooter.js:80-90 | tags become "being saved", the tags modal closes, overrides and the delete modal are untouched, and the payload is exactly `{ tags, applyTags }` |
| EditorFooter.OnDeleteSelectedPress | frontend/src/Series/Editor/SeriesEditorFooter.js:92-94 | opens the delete modal and changes nothing else |
| EditorFooter.OnDeleteSeriesModalClose | frontend/src/Series/Editor/SeriesEditorFooter.js:96-98 | closes the delete modal and changes nothing else |
| EditorFooter.OnTagsPress | frontend/src/Series/Editor/SeriesEditorFooter.js:100-102 | opens the tags modal and changes nothing else |
| EditorFooter.OnTagsModalClose | frontend/src/Series/Editor/SeriesEditorFooter.js:104-106 | closes the tags modal and changes nothing else |
| EditorFooter.ComponentDidUpdate | frontend/src/Series/Editor/SeriesEditorFooter.js:39-56 | when the previous props were saving and the current ones are not and carry no error, all six overrides become `noChange` and tags stop being saved; in every other case the state is unchanged; the modal flags are never touched |
| EditorFooter.Step | frontend/src/Series/Editor/SeriesEditorFooter.js:61-106 | an event calls out to the parent iff it is a non-`noChange` choice, a tags apply or an Organize press; every save payload is a one-field payload or a tags payload; modal events touch no override and not the tags-saving flag; Organize is forwarded without a state change |
| EditorFooter.StepEffectIgnoresState | frontend/src/Series/Editor/SeriesEditorFooter.js:61-90 | what a handler hands to `onSaveSelected` depends on its arguments only, not on earlier choices or open modals |
| EditorFooter.InputChangeIdempotent | frontend/src/Series/Editor/SeriesEditorFooter.js:61-78 | repeating a choice gives the same state and the same payload |
| EditorFooter.InputChangeOverwrites | frontend/src/Series/Editor/SeriesEditorFooter.js:61-78 | a later choice for the same field replaces an earlier one in state and payload |
| EditorFooter.InputChangesCommute | frontend/src/Series/Editor/SeriesEditorFooter.js:62 | choices for different fields reach the same state in either order |
| EditorFooter.MonitoredSavesBoolean | frontend/src/Series/Editor/SeriesEditorFooter.js:69-71 | the monitored payload is `true` exactly for the raw value `monitored`; `unmonitored` gives `false` |
| EditorFooter.SeasonFolderSavesBoolean | frontend/src/Series/Editor/SeriesEditorFooter.js:72-74 | the season folder payload is `true` exactly for `yes`; `no` gives `false` |
| EditorFooter.ModalRoundTrips | frontend/src/Series/Editor/SeriesEditorFooter.js:92-106 | opening a closed modal and closing it again restores the original state |
| EditorFooter.ResetForgetsChoice | frontend/src/Series/Editor/SeriesEditorFooter.js:45-54 | the completion reset is idempotent and erases any choice made before it |
| EditorView.RenderedFields | frontend/src/Series/Editor/SeriesEditorFooter.js:177-193 | every field row is rendered except the language profile row, which is rendered iff `showLanguageProfile` |
| EditorView.Render | frontend/src/Series/Editor/SeriesEditorFooter.js:145-291 | each rendered row's indicator is `isSaving` and an override other than `noChange`; the count label never shows one; each picker is disabled iff nothing is selected; Organize and Set Tags are disabled iff nothing is selected or organizing is in flight; Delete iff nothing is selected or deleting is in flight; the buttons spin on organizing, saving and deleting; the modals get the state's open flags and the delete modal the series ids |
| EditorView.EmptySelectionDisablesAll | frontend/src/Series/Editor/SeriesEditorFooter.js:153-273 | with nothing selected every rendered picker and all three buttons are disabled |
| EditorView.SelectionEnablesControls | frontend/src/Series/Editor/SeriesEditorFooter.js:153-274 | with a selection, pickers are enabled and each button is blocked only by its own operation; `isSaving` never gates Set Tags |
| EditorView.IndicatorsIgnoreSelection | frontend/src/Series/Editor/SeriesEditorFooter.js:148-243 | the saving indicators do not depend on the selection count |
| EditorView.NoIndicatorAfterReset | frontend/src/Series/Editor/SeriesEditorFooter.js:45-54 | right after a completed save no rendered row shows a saving indicator, whatever the current props |
| EditorView.IndicatorAfterChoice | frontend/src/Series/Editor/SeriesEditorFooter.js:148-243 | after a committed choice that row's indicator equals `isSaving`, and the other rows' indicators are unchanged |
| EditorView.SelectableMonitoredUnmonitors | frontend/src/Series/Editor/SeriesEditorFooter.js:133-137 | every monitored option the picker leaves enabled saves `{ monitored: false }` |
| EditorView.SelectableSeasonFolderCommits | frontend/src/Series/Editor/SeriesEditorFooter.js:139-143 | both enabled season folder options commit a save, `yes` as `true` and `no` as `false` |
| EditorTrace.Run | frontend/src/Series/Editor/SeriesEditorFooter.js:61-106 | replaying a trace makes exactly one call per committing event, and every save payload is well shaped |
| EditorTrace.RunSnoc | frontend/src/Series/Editor/SeriesEditorFooter.js:61-106 | replaying one more event is one more step, appending that step's call if any |
| EditorTrace.RunEffectsIgnoreState | frontend/src/Series/Editor/SeriesEditorFooter.js:61-90 | the calls made by a trace are the same whatever state it starts from: dispatches are never blocked or altered by pending choices |
| EditorTrace.RunState | frontend/src/Series/Editor/SeriesEditorFooter.js:39-106 | after any trace, each override is what the most recent choice for that field or completed save wrote; the tags-saving flag and the two modal flags are what their most recent writer set |
| EditorTrace.OverrideAfterSkips | frontend/src/Series/Editor/SeriesEditorFooter.js:39-106 | events that neither choose a field nor complete a save leave that field's override alone |
| EditorTrace.ChoicePersists | frontend/src/Series/Editor/SeriesEditorFooter.js:45-66 | a choice stays recorded until the same field is chosen again or a save completes, so a save that fails keeps it |
| EditorTrace.CompletedSaveClearsHistory | frontend/src/Series/Editor/SeriesEditorFooter.js:39-56 | a completed save after any history returns all overrides to their initial `noChange` values (those of `Init`), clears the tags-saving flag, keeps both modal flags and makes no call |
| EditorTrace.OtherUpdateKeepsState | frontend/src/Series/Editor/SeriesEditorFooter.js:45 | any props update other than a completed save changes neither state nor calls |

## Left out

- The JSX markup, CSS classes, labels and the `PageContentFooter`, `SpinnerButton` and `SeriesEditorFooterLabel` rendering are left out. They are presentation only.
- The PropTypes declarations are left out. The `Props` datatype's types take their place.
- The collaborator pickers (`SelectInput` and the profile, root folder and series type connectors) are left out, and so are their option lists. They are foreign components that only supply values. The model takes any raw value a picker could report.
- `TagsModal` and `DeleteSeriesModal` are left out. The footer only passes them flags, callbacks and the series ids. Deleting happens inside the delete modal, which is not part of this model.
- The asynchronous save, delete and organize operations behind `onSaveSelected` and `onOrganizeSeriesPress` are left out. Their calls are emitted effects. `isSaving`, `saveError`, `isDeleting` and `isOrganizingSeries` are inputs.
- Whether a disabled button or option can be pressed at all is decided by the foreign button and select components. The handlers do not check the gates, and neither does `Step`.
- The unused `deleteError` prop is left out.
- The props history across updates is not tracked. Each `DidUpdate` event carries its own previous and current props, and consecutive events need not chain (`prev` need not equal the last event's `cur`). `Run` therefore also accepts update sequences React cannot produce, such as two completed-save updates in a row. This only adds traces, so every property stated over all traces still covers the real ones.
- `onInputChange` accepts any property name in JavaScript. The model restricts it to the six fields, which are the only names the footer's pickers pass.
- JavaScript numbers are modelled as integers. The numbers involved are profile, tag and series identifiers and the selection count, all integral. `selectedCount` is a `nat` because a count is never negative.
