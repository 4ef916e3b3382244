/**
 * The main page: which generator it shows, what it derives from the store
 * (`currentData`, `isSaved`) and the handlers it passes to the action bar
 * and the generator, each a fixed sequence of slice actions.
 */
module Page {
  import opened BrowserStorage
  import opened DocumentSlice
  import opened DataStatusIndicator

  /** The components `templateComponents` registers. */
  datatype Component =
    | PrdGenerator | HldGenerator | LldGenerator | DbddGenerator | PrototypeGenerator | SrsGenerator
    | ComingSoon(templateName: string)

  /**
   * `templateComponents[id]?.component`: the nine registered ids. Any other
   * id, including the names `Object.prototype` supplies, has no `component`.
   */
  function Registered(id: string): Option<Component>
  {
    if id == "prd" then Some(PrdGenerator)
    else if id == "hld" then Some(HldGenerator)
    else if id == "lld" then Some(LldGenerator)
    else if id == "dbdd" then Some(DbddGenerator)
    else if id == "prototype" then Some(PrototypeGenerator)
    else if id == "srs" then Some(SrsGenerator)
    else if id == "brd" then Some(ComingSoon("BRD 商业需求文档"))
    else if id == "mrd" then Some(ComingSoon("MRD 市场需求文档"))
    else if id == "project-plan" then Some(ComingSoon("项目计划文档"))
    else None
  }

  /** `ActiveComponent`: the registered component, or the PRD generator for an id with none. */
  function ActiveComponent(id: string): (c: Component)
    ensures Registered(id).Some? ==> c == Registered(id).value
    ensures Registered(id).None? ==> c == PrdGenerator
  {
    var registered := Registered(id);
    if registered.Some? then registered.value else PrdGenerator
  }

  const SupportedTemplates: seq<string> := ["prd", "hld", "lld", "dbdd", "prototype", "srs"]

  /** `isDataAwareComponent`: the page shows the action bar and wires the data props. */
  predicate IsDataAware(id: string)
  {
    id in SupportedTemplates
  }

  /**
   * The action bar and the data props are given exactly to the ids that show
   * one of the six generators; the three placeholders and the fallback get
   * neither.
   */
  lemma DataAwareIffGenerator(id: string)
    ensures IsDataAware(id) <==> Registered(id).Some? && !Registered(id).value.ComingSoon?
    ensures IsDataAware(id) ==> !ActiveComponent(id).ComingSoon?
  {
  }

  /** `documentData[activeTemplate] || null`: the active record, or `null` (`None`) when absent or falsy. */
  function CurrentData(s: State): (r: Option<Doc>)
    ensures r.Some? <==> HasRecord(s, s.activeTemplate)
    ensures r.Some? ==> Truthy(r.value) && r.value == s.data[s.activeTemplate]
  {
    if HasRecord(s, s.activeTemplate) then Some(s.data[s.activeTemplate]) else None
  }

  /** `Object.keys(documentData).includes(activeTemplate)`: a key exists, truthy or not. */
  predicate IsSaved(s: State)
  {
    s.activeTemplate in s.data
  }

  /** What the action bar's status indicator shows for a store state, once mounted. */
  function StatusFor(s: State): DataView
  {
    DataStatus(s.hasUnsavedChanges, IsSaved(s))
  }

  /** `handleSave(d)`: store `d` under the active template, then clear the flag. */
  function SaveActions(s: State, d: Doc): seq<Action>
  {
    [UpdateDocumentData(s.activeTemplate, d), SetHasUnsavedChanges(false)]
  }

  /** `handleReset()`: reset the active template, then clear the flag. */
  function ResetActions(s: State): seq<Action>
  {
    [ResetCurrentTemplate(s.activeTemplate), SetHasUnsavedChanges(false)]
  }

  /**
   * Saving is an update followed by clearing the flag: the record is stored
   * under the active template, every other entry and the active template are
   * kept, and the indicator shows "saved".
   */
  lemma SaveComposition(s: State, d: Doc)
    ensures var s' := ReduceAll(s, SaveActions(s, d));
      && s'.data == s.data[s.activeTemplate := d]
      && s'.activeTemplate == s.activeTemplate
      && !s'.hasUnsavedChanges
      && IsSaved(s')
      && StatusFor(s') == Saved
      && (Truthy(d) ==> CurrentData(s') == Some(d))
  {
    ReduceAllTwo(s, UpdateDocumentData(s.activeTemplate, d), SetHasUnsavedChanges(false));
  }

  /**
   * The action bar saves `currentData`. With a record this changes no entry
   * and only clears the flag; with none it stores `null` (`Blank`), which
   * still counts as saved.
   */
  lemma SaveCurrentData(s: State)
    ensures var d := if CurrentData(s).Some? then CurrentData(s).value else Blank;
      var s' := ReduceAll(s, SaveActions(s, d));
      && (HasRecord(s, s.activeTemplate) ==> s'.data == s.data)
      && (!HasRecord(s, s.activeTemplate) ==> s.activeTemplate in s'.data && s'.data[s.activeTemplate] == Blank && CurrentData(s').None?)
      && IsSaved(s') && !s'.hasUnsavedChanges
  {
    var d := if CurrentData(s).Some? then CurrentData(s).value else Blank;
    SaveComposition(s, d);
  }

  /** A data change stores the record and raises the flag, so the indicator shows unsaved changes even though the key now exists. */
  lemma DataChangeShowsUnsaved(s: State, d: Doc)
    ensures var s' := Reduce(s, UpdateDocumentData(s.activeTemplate, d));
      && s'.data[s.activeTemplate] == d
      && IsSaved(s')
      && StatusFor(s') == UnsavedChanges
  {
  }

  /**
   * Resetting removes the active template's record, keeps every other entry
   * and the active template, clears the flag, and the indicator shows "not
   * saved" when there was a record to remove.
   */
  lemma ResetComposition(s: State)
    ensures var s' := ReduceAll(s, ResetActions(s));
      && s'.activeTemplate == s.activeTemplate
      && !s'.hasUnsavedChanges
      && CurrentData(s').None?
      && (forall k :: k != s.activeTemplate ==> (k in s'.data <==> k in s.data))
      && (forall k :: k in s'.data ==> k in s.data && s'.data[k] == s.data[k])
      && (HasRecord(s, s.activeTemplate) ==> !IsSaved(s') && StatusFor(s') == NotSaved)
  {
    ReduceAllTwo(s, ResetCurrentTemplate(s.activeTemplate), SetHasUnsavedChanges(false));
  }

  /** `handleTemplateChange(id)`. */
  method HandleTemplateChange(store: DocumentStore, templateId: string)
    modifies store
    ensures store.Snapshot() == Reduce(old(store.Snapshot()), SetActiveTemplate(templateId))
  {
    store.SetActiveTemplate(templateId);
  }

  /** `handleSave(d)`: always reports success. */
  method HandleSave(store: DocumentStore, doc: Doc) returns (ok: bool)
    modifies store
    ensures ok
    ensures store.Snapshot() == ReduceAll(old(store.Snapshot()), SaveActions(old(store.Snapshot()), doc))
  {
    ghost var s := store.Snapshot();
    store.UpdateDocumentData(store.activeTemplate, doc);
    store.SetHasUnsavedChanges(false);
    ReduceAllTwo(s, UpdateDocumentData(s.activeTemplate, doc), SetHasUnsavedChanges(false));
    return true;
  }

  /** `handleDataChange(d)`: store only; the flag goes up. */
  method HandleDataChange(store: DocumentStore, doc: Doc)
    modifies store
    ensures store.Snapshot() == Reduce(old(store.Snapshot()), UpdateDocumentData(old(store.activeTemplate), doc))
  {
    store.UpdateDocumentData(store.activeTemplate, doc);
  }

  /** `handleReset()`: the persisted copy is rewritten as `resetCurrentTemplate` does. */
  method HandleReset(store: DocumentStore, storage: LocalStorage<Stored>)
    requires storage.Valid()
    modifies store, storage
    ensures store.Snapshot() == ReduceAll(old(store.Snapshot()), ResetActions(old(store.Snapshot())))
    ensures storage.Valid()
    ensures storage.values == StorageAfterReset(old(storage.values), old(storage.available), old(HasRecord(store.Snapshot(), store.activeTemplate)), old(store.activeTemplate))
  {
    ghost var s := store.Snapshot();
    store.ResetCurrentTemplate(store.activeTemplate, storage);
    store.SetHasUnsavedChanges(false);
    ReduceAllTwo(s, ResetCurrentTemplate(s.activeTemplate), SetHasUnsavedChanges(false));
  }
}
