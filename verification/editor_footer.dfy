/** The footer's event handlers as pure transitions. Each handler takes the
    current state and returns the next state together with what it hands to
    the `onSaveSelected` callback, if anything. */
module EditorFooter {
  import opened JsValues
  import opened EditorState

  /** The properties the parent passes in; all of them are inputs the footer
      only reads. `saveError` is `None` when the prop is `null`/`undefined`. */
  datatype Props = Props(
    seriesIds: seq<int>,
    selectedCount: nat,
    isSaving: bool,
    saveError: Option<string>,
    isDeleting: bool,
    isOrganizingSeries: bool,
    showLanguageProfile: bool)

  /** What the footer asks of its parent. */
  datatype Effect =
    | SaveSelected(payload: Payload)   // `onSaveSelected(payload)`
    | OrganizeSeries                   // `onOrganizeSeriesPress()`

  /** Everything that makes the footer change state or call out. */
  datatype Event =
    | InputChange(name: Field, value: JsValue)
    | ApplyTagsPress(tags: seq<int>, applyTags: string)
    | DeleteSelectedPress
    | DeleteSeriesModalClose
    | TagsPress
    | TagsModalClose
    | OrganizePress
    | DidUpdate(prev: Props, cur: Props)

  /** A single-field save or a tags save: the only payload shapes the footer
      ever produces. */
  predicate WellShaped(p: Payload)
  {
    || (exists f :: p.Keys == {FieldKey(f)})
    || p.Keys == {"tags", "applyTags"}
  }

  /** The save that was in flight has just finished without an error. */
  predicate SaveCompleted(prev: Props, cur: Props)
  {
    prev.isSaving && !cur.isSaving && cur.saveError.None?
  }

  /** The value saved for a field, given the raw value its picker reported.
      The monitored picker reports `monitored`/`unmonitored` and the season
      folder picker `yes`/`no`; both are saved as booleans. */
  function SavedValue(name: Field, value: JsValue): JsValue
  {
    match name
    case Monitored => JsBool(value == JsStr("monitored"))
    case SeasonFolder => JsBool(value == JsStr("yes"))
    case _ => value
  }

  /** `onInputChange({ name, value })`. */
  function OnInputChange(s: State, name: Field, value: JsValue): (r: (State, Option<Payload>))
    ensures r.0.Get(name) == value
    ensures forall g :: g != name ==> r.0.Get(g) == s.Get(g)
    ensures SameFlags(s, r.0)
    ensures r.1.None? <==> value == NoChange
    ensures r.1.Some? ==> r.1.value.Keys == {FieldKey(name)}
    ensures r.1.Some? && name == Monitored ==>
              r.1.value[FieldKey(name)] == JsBool(value == JsStr("monitored"))
    ensures r.1.Some? && name == SeasonFolder ==>
              r.1.value[FieldKey(name)] == JsBool(value == JsStr("yes"))
    ensures r.1.Some? && name != Monitored && name != SeasonFolder ==>
              r.1.value[FieldKey(name)] == value
  {
    var t := s.Put(name, value);
    if value == NoChange then (t, None)
    else (t, Some(map[FieldKey(name) := SavedValue(name, value)]))
  }

  /** `onApplyTagsPress(tags, applyTags)`. */
  function OnApplyTagsPress(s: State, tags: seq<int>, applyTags: string): (r: (State, Payload))
    ensures r.0.savingTags && !r.0.isTagsModalOpen
    ensures SameOverrides(s, r.0)
    ensures r.0.isDeleteSeriesModalOpen == s.isDeleteSeriesModalOpen
    ensures r.1.Keys == {"tags", "applyTags"}
    ensures r.1["tags"] == JsNumArray(tags) && r.1["applyTags"] == JsStr(applyTags)
  {
    (s.(savingTags := true, isTagsModalOpen := false),
     map["tags" := JsNumArray(tags), "applyTags" := JsStr(applyTags)])
  }

  /** `onDeleteSelectedPress`: opens the delete modal, deletes nothing. */
  function OnDeleteSelectedPress(s: State): (r: State)
    ensures r.isDeleteSeriesModalOpen
    ensures SameOverrides(s, r)
    ensures r.savingTags == s.savingTags && r.isTagsModalOpen == s.isTagsModalOpen
  {
    s.(isDeleteSeriesModalOpen := true)
  }

  /** `onDeleteSeriesModalClose`. */
  function OnDeleteSeriesModalClose(s: State): (r: State)
    ensures !r.isDeleteSeriesModalOpen
    ensures SameOverrides(s, r)
    ensures r.savingTags == s.savingTags && r.isTagsModalOpen == s.isTagsModalOpen
  {
    s.(isDeleteSeriesModalOpen := false)
  }

  /** `onTagsPress`: opens the tags modal. */
  function OnTagsPress(s: State): (r: State)
    ensures r.isTagsModalOpen
    ensures SameOverrides(s, r)
    ensures r.savingTags == s.savingTags && r.isDeleteSeriesModalOpen == s.isDeleteSeriesModalOpen
  {
    s.(isTagsModalOpen := true)
  }

  /** `onTagsModalClose`. */
  function OnTagsModalClose(s: State): (r: State)
    ensures !r.isTagsModalOpen
    ensures SameOverrides(s, r)
    ensures r.savingTags == s.savingTags && r.isDeleteSeriesModalOpen == s.isDeleteSeriesModalOpen
  {
    s.(isTagsModalOpen := false)
  }

  /** `componentDidUpdate(prevProps)`: the edge-triggered reset. */
  function ComponentDidUpdate(s: State, prev: Props, cur: Props): (r: State)
    ensures SaveCompleted(prev, cur) ==> Untouched(r) && !r.savingTags
    ensures !SaveCompleted(prev, cur) ==> r == s
    ensures r.isDeleteSeriesModalOpen == s.isDeleteSeriesModalOpen
    ensures r.isTagsModalOpen == s.isTagsModalOpen
  {
    if SaveCompleted(prev, cur) then
      s.(monitored := NoChange,
         qualityProfileId := NoChange,
         languageProfileId := NoChange,
         seriesType := NoChange,
         seasonFolder := NoChange,
         rootFolderPath := NoChange,
         savingTags := false)
    else s
  }

  /** The events that make the footer call out to its parent. */
  predicate Commits(e: Event)
  {
    match e
    case InputChange(_, value) => value != NoChange
    case ApplyTagsPress(_, _) => true
    case OrganizePress => true
    case _ => false
  }

  /** The modal open/close events. */
  predicate ModalEvent(e: Event)
  {
    e.DeleteSelectedPress? || e.DeleteSeriesModalClose? || e.TagsPress? || e.TagsModalClose?
  }

  /** One transition of the footer. */
  function Step(s: State, e: Event): (r: (State, Option<Effect>))
    ensures r.1.Some? <==> Commits(e)
    ensures r.1.Some? && r.1.value.SaveSelected? ==> WellShaped(r.1.value.payload)
    ensures r.1 == Some(OrganizeSeries) <==> e.OrganizePress?
    ensures ModalEvent(e) ==> SameOverrides(s, r.0) && r.0.savingTags == s.savingTags
    ensures e.OrganizePress? ==> r.0 == s
  {
    match e
    case InputChange(name, value) =>
      var (t, p) := OnInputChange(s, name, value);
      (t, if p.Some? then Some(SaveSelected(p.value)) else None)
    case ApplyTagsPress(tags, applyTags) =>
      var (t, p) := OnApplyTagsPress(s, tags, applyTags);
      (t, Some(SaveSelected(p)))
    case DeleteSelectedPress => (OnDeleteSelectedPress(s), None)
    case DeleteSeriesModalClose => (OnDeleteSeriesModalClose(s), None)
    case TagsPress => (OnTagsPress(s), None)
    case TagsModalClose => (OnTagsModalClose(s), None)
    case OrganizePress => (s, Some(OrganizeSeries))
    case DidUpdate(prev, cur) => (ComponentDidUpdate(s, prev, cur), None)
  }

  /** What a transition hands to the parent depends on the event alone, never
      on the overrides or flags recorded so far. */
  lemma StepEffectIgnoresState(s: State, t: State, e: Event)
    ensures Step(s, e).1 == Step(t, e).1
  {
  }

  /** Choosing the same value again yields the same state and the same save:
      a retry is a plain overwrite. */
  lemma InputChangeIdempotent(s: State, name: Field, value: JsValue)
    ensures OnInputChange(OnInputChange(s, name, value).0, name, value) == OnInputChange(s, name, value)
  {
  }

  /** A later choice for the same field replaces the earlier one. */
  lemma InputChangeOverwrites(s: State, name: Field, v: JsValue, w: JsValue)
    ensures OnInputChange(OnInputChange(s, name, v).0, name, w) == OnInputChange(s, name, w)
  {
  }

  /** Choices for different fields do not interfere with each other. */
  lemma InputChangesCommute(s: State, f: Field, v: JsValue, g: Field, w: JsValue)
    requires f != g
    ensures OnInputChange(OnInputChange(s, f, v).0, g, w).0
         == OnInputChange(OnInputChange(s, g, w).0, f, v).0
  {
  }

  /** The saved value for the monitored field is `true` exactly for the raw
      value `monitored`; `unmonitored` saves `false`. */
  lemma MonitoredSavesBoolean(s: State, value: JsValue)
    requires value != NoChange
    ensures OnInputChange(s, Monitored, value).1 == Some(map["monitored" := JsBool(value == JsStr("monitored"))])
    ensures value == JsStr("unmonitored") ==> OnInputChange(s, Monitored, value).1 == Some(map["monitored" := JsBool(false)])
  {
  }

  /** The season folder picker's `yes` saves `true` and `no` saves `false`. */
  lemma SeasonFolderSavesBoolean(s: State, value: JsValue)
    requires value != NoChange
    ensures OnInputChange(s, SeasonFolder, value).1 == Some(map["seasonFolder" := JsBool(value == JsStr("yes"))])
    ensures value == JsStr("no") ==> OnInputChange(s, SeasonFolder, value).1 == Some(map["seasonFolder" := JsBool(false)])
  {
  }

  /** Closing a modal that was just opened restores the state it was opened
      from, provided it was closed before. */
  lemma ModalRoundTrips(s: State)
    ensures !s.isDeleteSeriesModalOpen ==> OnDeleteSeriesModalClose(OnDeleteSelectedPress(s)) == s
    ensures !s.isTagsModalOpen ==> OnTagsModalClose(OnTagsPress(s)) == s
  {
  }

  /** The reset is idempotent and forgets every override: resetting after any
      single choice gives the same state as resetting without it. */
  lemma ResetForgetsChoice(s: State, prev: Props, cur: Props, name: Field, value: JsValue)
    requires SaveCompleted(prev, cur)
    ensures ComponentDidUpdate(ComponentDidUpdate(s, prev, cur), prev, cur) == ComponentDidUpdate(s, prev, cur)
    ensures ComponentDidUpdate(OnInputChange(s, name, value).0, prev, cur) == ComponentDidUpdate(s, prev, cur)
  {
  }
}
