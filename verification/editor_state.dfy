/** The footer's component state: six per-field overrides, the "tags are being
    saved" flag and the open/closed flags of the two modals. */
module EditorState {
  import opened JsValues

  /** The sentinel a picker reports when the user wants the field left alone. */
  const NoChange: JsValue := JsStr("noChange")

  /** The six bulk-editable series fields. */
  datatype Field =
    | Monitored
    | QualityProfileId
    | LanguageProfileId
    | SeriesType
    | SeasonFolder
    | RootFolderPath

  /** The property name under which a field is stored and saved. */
  function FieldKey(f: Field): string
  {
    match f
    case Monitored => "monitored"
    case QualityProfileId => "qualityProfileId"
    case LanguageProfileId => "languageProfileId"
    case SeriesType => "seriesType"
    case SeasonFolder => "seasonFolder"
    case RootFolderPath => "rootFolderPath"
  }

  /** Distinct fields are saved under distinct property names, none of which
      clashes with the two property names of a tags payload. */
  lemma FieldKeyDistinct(f: Field, g: Field)
    ensures FieldKey(f) == FieldKey(g) <==> f == g
    ensures FieldKey(f) != "tags" && FieldKey(f) != "applyTags"
  {
  }

  datatype State = State(
    monitored: JsValue,
    qualityProfileId: JsValue,
    languageProfileId: JsValue,
    seriesType: JsValue,
    seasonFolder: JsValue,
    rootFolderPath: JsValue,
    savingTags: bool,
    isDeleteSeriesModalOpen: bool,
    isTagsModalOpen: bool)
  {
    /** The override currently recorded for `f`. */
    function Get(f: Field): JsValue
    {
      match f
      case Monitored => monitored
      case QualityProfileId => qualityProfileId
      case LanguageProfileId => languageProfileId
      case SeriesType => seriesType
      case SeasonFolder => seasonFolder
      case RootFolderPath => rootFolderPath
    }

    /** `setState({ [f]: v })`: records `v` for `f` and nothing else. */
    function Put(f: Field, v: JsValue): (t: State)
      ensures t.Get(f) == v
      ensures forall g :: g != f ==> t.Get(g) == Get(g)
      ensures SameFlags(this, t)
    {
      match f
      case Monitored => this.(monitored := v)
      case QualityProfileId => this.(qualityProfileId := v)
      case LanguageProfileId => this.(languageProfileId := v)
      case SeriesType => this.(seriesType := v)
      case SeasonFolder => this.(seasonFolder := v)
      case RootFolderPath => this.(rootFolderPath := v)
    }
  }

  /** Every override is the sentinel. */
  predicate Untouched(s: State)
  {
    forall f :: s.Get(f) == NoChange
  }

  /** The two states record the same override for every field. */
  predicate SameOverrides(a: State, b: State)
  {
    forall f :: a.Get(f) == b.Get(f)
  }

  /** The two states agree on the tags-saving flag and both modal flags. */
  predicate SameFlags(a: State, b: State)
  {
    && a.savingTags == b.savingTags
    && a.isDeleteSeriesModalOpen == b.isDeleteSeriesModalOpen
    && a.isTagsModalOpen == b.isTagsModalOpen
  }

  /** The state the constructor sets up. */
  function Init(): (s: State)
    ensures Untouched(s)
    ensures !s.savingTags
    ensures !s.isDeleteSeriesModalOpen && !s.isTagsModalOpen
  {
    State(NoChange, NoChange, NoChange, NoChange, NoChange, NoChange, false, false, false)
  }

  /** Writing the same field twice keeps only the later value. */
  lemma PutPut(s: State, f: Field, v: JsValue, w: JsValue)
    ensures s.Put(f, v).Put(f, w) == s.Put(f, w)
  {
  }

  /** Writes to distinct fields commute. */
  lemma PutCommutes(s: State, f: Field, v: JsValue, g: Field, w: JsValue)
    requires f != g
    ensures s.Put(f, v).Put(g, w) == s.Put(g, w).Put(f, v)
  {
  }

  /** Writing back what is already recorded changes nothing. */
  lemma PutGet(s: State, f: Field)
    ensures s.Put(f, s.Get(f)) == s
  {
  }
}
