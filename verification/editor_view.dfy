/** The non-markup outputs of the footer's `render`: the per-field saving
    indicators, the enable/disable gates and spinners of the pickers and
    buttons, what the two modals are given, and the two option lists the
    footer builds itself. */
module EditorView {
  import opened JsValues
  import opened EditorState
  import opened EditorFooter

  /** The values the footer passes down to its children. A field absent from
      `labelSaving`/`pickerDisabled` is not rendered at all. */
  datatype View = View(
    labelSaving: map<Field, bool>,
    pickerDisabled: map<Field, bool>,
    countLabelSaving: bool,
    organizeSpinning: bool,
    organizeDisabled: bool,
    tagsSpinning: bool,
    tagsDisabled: bool,
    deleteSpinning: bool,
    deleteDisabled: bool,
    tagsModalOpen: bool,
    deleteModalOpen: bool,
    deleteModalSeriesIds: seq<int>)

  /** Whether the row of a field is rendered: all rows but the language
      profile row are unconditional. */
  predicate Shown(p: Props, f: Field)
  {
    f != LanguageProfileId || p.showLanguageProfile
  }

  /** `isSaving && value !== NO_CHANGE` for one row's label. */
  function Indicator(p: Props, v: JsValue): bool
  {
    p.isSaving && v != NoChange
  }

  /** The fields whose rows `render` emits. */
  function RenderedFields(p: Props): (fs: set<Field>)
    ensures forall f :: f in fs <==> Shown(p, f)
  {
    var always := {Monitored, QualityProfileId, SeriesType, SeasonFolder, RootFolderPath};
    if p.showLanguageProfile then always + {LanguageProfileId} else always
  }

  /** `render()`, without the markup. */
  function Render(p: Props, s: State): (v: View)
    ensures forall f :: f in v.labelSaving <==> Shown(p, f)
    ensures forall f :: f in v.labelSaving ==> (v.labelSaving[f] <==> p.isSaving && s.Get(f) != NoChange)
    ensures forall f :: f in v.pickerDisabled <==> Shown(p, f)
    ensures forall f :: f in v.pickerDisabled ==> (v.pickerDisabled[f] <==> p.selectedCount == 0)
    ensures !v.countLabelSaving
    ensures v.organizeDisabled <==> p.selectedCount == 0 || p.isOrganizingSeries
    ensures v.tagsDisabled <==> p.selectedCount == 0 || p.isOrganizingSeries
    ensures v.deleteDisabled <==> p.selectedCount == 0 || p.isDeleting
    ensures v.organizeSpinning == p.isOrganizingSeries
    ensures v.tagsSpinning == p.isSaving
    ensures v.deleteSpinning == p.isDeleting
    ensures v.tagsModalOpen == s.isTagsModalOpen && v.deleteModalOpen == s.isDeleteSeriesModalOpen
    ensures v.deleteModalSeriesIds == p.seriesIds
  {
    var rows := RenderedFields(p);
    View(
      map f | f in rows :: Indicator(p, s.Get(f)),
      map f | f in rows :: p.selectedCount == 0,
      false,
      p.isOrganizingSeries,
      p.selectedCount == 0 || p.isOrganizingSeries,
      p.isSaving,
      p.selectedCount == 0 || p.isOrganizingSeries,
      p.isDeleting,
      p.selectedCount == 0 || p.isDeleting,
      s.isTagsModalOpen,
      s.isDeleteSeriesModalOpen,
      p.seriesIds)
  }

  /** With nothing selected, every rendered picker and all three buttons are
      disabled. */
  lemma EmptySelectionDisablesAll(p: Props, s: State)
    requires p.selectedCount == 0
    ensures forall f :: f in Render(p, s).pickerDisabled ==> Render(p, s).pickerDisabled[f]
    ensures Render(p, s).organizeDisabled && Render(p, s).tagsDisabled && Render(p, s).deleteDisabled
  {
  }

  /** With a non-empty selection, every rendered picker is enabled, and each
      button is blocked only by its own operation being in flight; an
      in-flight save never blocks Set Tags. */
  lemma SelectionEnablesControls(p: Props, s: State)
    requires p.selectedCount > 0
    ensures forall f :: f in Render(p, s).pickerDisabled ==> !Render(p, s).pickerDisabled[f]
    ensures Render(p, s).organizeDisabled == p.isOrganizingSeries
    ensures Render(p, s).tagsDisabled == p.isOrganizingSeries
    ensures Render(p, s).deleteDisabled == p.isDeleting
    ensures Render(p.(isSaving := !p.isSaving), s).tagsDisabled == Render(p, s).tagsDisabled
  {
  }

  /** The saving indicators read the save flag and the overrides only: the
      size of the selection does not force them off. */
  lemma IndicatorsIgnoreSelection(p: Props, s: State, n: nat)
    ensures Render(p.(selectedCount := n), s).labelSaving == Render(p, s).labelSaving
  {
  }

  /** Right after a successful save completes, no row shows an indicator,
      whatever the current props say. */
  lemma NoIndicatorAfterReset(s: State, prev: Props, cur: Props, p: Props)
    requires SaveCompleted(prev, cur)
    ensures forall f :: f in Render(p, ComponentDidUpdate(s, prev, cur)).labelSaving ==>
              !Render(p, ComponentDidUpdate(s, prev, cur)).labelSaving[f]
  {
  }

  /** After a committed choice, that field's row shows an indicator exactly
      while a save is in flight; the other rows are unaffected by the choice. */
  lemma IndicatorAfterChoice(s: State, name: Field, value: JsValue, p: Props)
    requires value != NoChange && Shown(p, name)
    ensures Render(p, OnInputChange(s, name, value).0).labelSaving[name] == p.isSaving
    ensures forall g :: g != name && g in Render(p, s).labelSaving ==>
              Render(p, OnInputChange(s, name, value).0).labelSaving[g] == Render(p, s).labelSaving[g]
  {
  }

  /** One entry of a `SelectInput` option list. */
  datatype SelectOption = SelectOption(key: JsValue, text: string, disabled: bool)

  /** The monitored picker's options: only `unmonitored` can be chosen. */
  const MonitoredOptions: seq<SelectOption> := [
    SelectOption(NoChange, "No Change", true),
    SelectOption(JsStr("monitored"), "Monitored", true),
    SelectOption(JsStr("unmonitored"), "Unmonitored", false)]

  /** The season folder picker's options. */
  const SeasonFolderOptions: seq<SelectOption> := [
    SelectOption(NoChange, "No Change", true),
    SelectOption(JsStr("yes"), "Yes", false),
    SelectOption(JsStr("no"), "No", false)]

  /** Every option the monitored picker lets the user choose saves
      `monitored: false`: in bulk, series can only be unmonitored. */
  lemma SelectableMonitoredUnmonitors(s: State, i: int)
    requires 0 <= i < |MonitoredOptions| && !MonitoredOptions[i].disabled
    ensures OnInputChange(s, Monitored, MonitoredOptions[i].key).1 == Some(map["monitored" := JsBool(false)])
  {
  }

  /** Both choosable season folder options commit, to opposite booleans. */
  lemma SelectableSeasonFolderCommits(s: State, i: int)
    requires 0 <= i < |SeasonFolderOptions| && !SeasonFolderOptions[i].disabled
    ensures OnInputChange(s, SeasonFolder, SeasonFolderOptions[i].key).1
         == Some(map["seasonFolder" := JsBool(SeasonFolderOptions[i].key == JsStr("yes"))])
  {
  }
}
