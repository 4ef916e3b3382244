/**
 * The sidebar: the template buttons with their saved marker and click
 * guard, and the reset-all control with its visibility rule.
 */
module Sidebar {
  import opened BrowserStorage
  import opened DocumentSlice
  import opened UseDocumentStorage
  import Page

  datatype TemplateStatus = Available | ComingSoon

  datatype Template = Template(id: string, status: TemplateStatus)

  /** `designDocTemplates`, `requirementAnalysisTemplates` and `otherTemplates`, in order. */
  const Templates: seq<Template> := [
    Template("prd", Available), Template("hld", Available), Template("lld", Available), Template("dbdd", Available),
    Template("prototype", Available), Template("srs", Available),
    Template("brd", ComingSoon), Template("mrd", ComingSoon), Template("project-plan", ComingSoon)
  ]

  /** `isMounted ? Object.keys(documentData) : []`, as a set: only membership and emptiness are used. */
  function SavedTemplates(isMounted: bool, data: map<string, Doc>): (saved: set<string>)
    ensures !isMounted ==> saved == {}
    ensures isMounted ==> forall id :: id in saved <==> id in data
  {
    if isMounted then data.Keys else {}
  }

  /** `isSaved` for one button: the saved marker is drawn. */
  predicate ShowsSavedMarker(isMounted: bool, data: map<string, Doc>, t: Template)
  {
    t.id in SavedTemplates(isMounted, data)
  }

  /** The template a click switches to: `onTemplateChange` is called only for an available template. */
  function OnClick(t: Template): Option<string>
  {
    if t.status == Available then Some(t.id) else None
  }

  /** The reset-all control is rendered (expanded or collapsed). */
  predicate ResetOffered(isMounted: bool, data: map<string, Doc>)
  {
    |SavedTemplates(isMounted, data)| > 0
  }

  /** After mounting, a button's marker agrees with the page's `isSaved` for the same template. */
  lemma MarkerAgreesWithPage(s: State, t: Template)
    requires t.id == s.activeTemplate
    ensures ShowsSavedMarker(true, s.data, t) <==> Page.IsSaved(s)
    ensures !ShowsSavedMarker(false, s.data, t)
  {
  }

  /**
   * A click on a coming-soon button never switches; every available button
   * switches to its own id, and those ids are exactly the page's data-aware
   * templates.
   */
  lemma ClickGuard(i: int)
    requires 0 <= i < |Templates|
    ensures Templates[i].status == ComingSoon ==> OnClick(Templates[i]).None?
    ensures Templates[i].status == Available ==> OnClick(Templates[i]) == Some(Templates[i].id)
    ensures OnClick(Templates[i]).Some? <==> Page.IsDataAware(Templates[i].id)
    ensures Page.Registered(Templates[i].id).Some?
  {
  }

  /** The reset-all control shows exactly when mounted and some template has an entry. */
  lemma ResetOfferedIffSaved(isMounted: bool, data: map<string, Doc>)
    ensures ResetOffered(isMounted, data) <==> isMounted && data != map[]
  {
    if isMounted && data != map[] {
      var k :| k in data;
      assert k in SavedTemplates(isMounted, data);
    }
  }

  /**
   * `handleReset`: `resetAllData()` then `onTemplateChange('prd')`. The store
   * ends in its initial state, so no marker is drawn and the reset control
   * disappears; storage loses the keys `resetAllData` clears.
   */
  method HandleReset(store: DocumentStore, storage: LocalStorage<Stored>)
    requires storage.Valid()
    modifies store, storage
    ensures store.Snapshot() == Initial()
    ensures !ResetOffered(true, store.data)
    ensures storage.Valid() && storage.available == old(storage.available)
    ensures storage.available ==> forall k :: k in storage.values <==> k in old(storage.values) && !Cleared(k)
    ensures !storage.available ==> storage.values == old(storage.values)
    ensures forall k :: k in storage.values ==> k in old(storage.values) && storage.values[k] == old(storage.values)[k]
  {
    ResetAllData(store, storage);
    Page.HandleTemplateChange(store, "prd");
  }
}
