/**
 * The Redux slice `documents`: one record per template id, the active
 * template and the unsaved-changes flag. `Reduce` is the reducer over plain
 * values; `DocumentStore` is the Immer draft the reducers mutate in place,
 * each of its methods doing what `Reduce` says. `resetDocumentData` and
 * `resetCurrentTemplate` also edit the copy redux-persist keeps in
 * `localStorage` under `persist:prd-generator`.
 */
module DocumentSlice {
  import opened BrowserStorage

  /**
   * What the store holds for a template: a generator's record, or a falsy
   * JavaScript value (`null`, `undefined`, `""`, …). The record's contents
   * never matter to the store, only whether it is truthy.
   */
  datatype Doc = Blank | Form(record: string)

  predicate Truthy(d: Doc)
  {
    d.Form?
  }

  datatype State = State(data: map<string, Doc>, activeTemplate: string, hasUnsavedChanges: bool)

  /** `initialState`. */
  function Initial(): State
  {
    State(map[], "prd", false)
  }

  datatype Action =
    | SetActiveTemplate(id: string)
    | UpdateDocumentData(templateId: string, doc: Doc)
    | SetHasUnsavedChanges(flag: bool)
    | ResetDocumentData
    | ResetCurrentTemplate(templateId: string)

  /** `state.data[t]` is truthy: the entry exists and holds a record. */
  predicate HasRecord(s: State, t: string)
  {
    t in s.data && Truthy(s.data[t])
  }

  /** The reducer, on the in-memory state. */
  function Reduce(s: State, a: Action): State
  {
    match a
    case SetActiveTemplate(id) => s.(activeTemplate := id, hasUnsavedChanges := false)
    case UpdateDocumentData(t, d) => s.(data := s.data[t := d], hasUnsavedChanges := true)
    case SetHasUnsavedChanges(b) => s.(hasUnsavedChanges := b)
    case ResetDocumentData => Initial()
    case ResetCurrentTemplate(t) =>
      if HasRecord(s, t) then s.(data := s.data - {t}, hasUnsavedChanges := false)
      else s.(hasUnsavedChanges := false)
  }

  /** A run of dispatched actions, first to last. */
  function ReduceAll(s: State, actions: seq<Action>): State
    decreases |actions|
  {
    if actions == [] then s else ReduceAll(Reduce(s, actions[0]), actions[1..])
  }

  lemma {:induction false} ReduceAllAppend(s: State, a: seq<Action>, b: seq<Action>)
    ensures ReduceAll(s, a + b) == ReduceAll(ReduceAll(s, a), b)
    decreases |a|
  {
    if a == [] {
      assert a + b == b;
    } else {
      assert (a + b)[0] == a[0];
      assert (a + b)[1..] == a[1..] + b;
      ReduceAllAppend(Reduce(s, a[0]), a[1..], b);
    }
  }

  /** Two actions dispatched one after the other. */
  lemma ReduceAllTwo(s: State, a: Action, b: Action)
    ensures ReduceAll(s, [a, b]) == Reduce(Reduce(s, a), b)
  {
    assert [a, b][1..] == [b];
    assert [b][1..] == [];
    assert ReduceAll(Reduce(Reduce(s, a), b), []) == Reduce(Reduce(s, a), b);
    assert ReduceAll(Reduce(s, a), [b]) == ReduceAll(Reduce(Reduce(s, a), b), []);
  }

  /** The flag every action leaves behind: only an update raises it. */
  function FlagAfter(a: Action): bool
  {
    match a
    case UpdateDocumentData(_, _) => true
    case SetHasUnsavedChanges(b) => b
    case _ => false
  }

  /** Every action sets the flag, so after a run it is the one the last action set, whatever came before. */
  lemma {:induction false} FlagIsSetByLastAction(s: State, actions: seq<Action>)
    requires actions != []
    ensures ReduceAll(s, actions).hasUnsavedChanges == FlagAfter(actions[|actions| - 1])
    decreases |actions|
  {
    if |actions| > 1 {
      FlagIsSetByLastAction(Reduce(s, actions[0]), actions[1..]);
    }
  }

  /** Whether the action may touch the entry for template `t`. */
  predicate Touches(a: Action, t: string)
  {
    match a
    case UpdateDocumentData(id, _) => id == t
    case ResetCurrentTemplate(id) => id == t
    case ResetDocumentData => true
    case _ => false
  }

  /** One action leaves every template it does not name as it was, present or absent. */
  lemma OtherTemplateUntouched(s: State, a: Action, t: string)
    requires !Touches(a, t)
    ensures t in Reduce(s, a).data <==> t in s.data
    ensures t in s.data ==> Reduce(s, a).data[t] == s.data[t]
  {
  }

  /** A run of actions that never name template `t` (and never reset everything) leaves its entry as it was. */
  lemma {:induction false} UntouchedTemplateKeepsEntry(s: State, actions: seq<Action>, t: string)
    requires forall i :: 0 <= i < |actions| ==> !Touches(actions[i], t)
    ensures t in ReduceAll(s, actions).data <==> t in s.data
    ensures t in s.data ==> ReduceAll(s, actions).data[t] == s.data[t]
    decreases |actions|
  {
    if actions != [] {
      OtherTemplateUntouched(s, actions[0], t);
      assert forall i :: 0 <= i < |actions[1..]| ==> !Touches(actions[1..][i], t) by {
        forall i | 0 <= i < |actions[1..]| ensures !Touches(actions[1..][i], t) {
          assert actions[1..][i] == actions[i + 1];
        }
      }
      UntouchedTemplateKeepsEntry(Reduce(s, actions[0]), actions[1..], t);
    }
  }

  /** Whether the action may change the active template. */
  predicate Switches(a: Action)
  {
    a.SetActiveTemplate? || a.ResetDocumentData?
  }

  /** Only switching and the full reset change the active template: everything else preserves it, over any run. */
  lemma {:induction false} ActiveTemplatePreserved(s: State, actions: seq<Action>)
    requires forall i :: 0 <= i < |actions| ==> !Switches(actions[i])
    ensures ReduceAll(s, actions).activeTemplate == s.activeTemplate
    decreases |actions|
  {
    if actions != [] {
      assert !Switches(actions[0]);
      assert forall i :: 0 <= i < |actions[1..]| ==> !Switches(actions[1..][i]) by {
        forall i | 0 <= i < |actions[1..]| ensures !Switches(actions[1..][i]) {
          assert actions[1..][i] == actions[i + 1];
        }
      }
      ActiveTemplatePreserved(Reduce(s, actions[0]), actions[1..]);
    }
  }

  /** The full reset lands on the initial state from anywhere, so a second reset changes nothing. */
  lemma ResetDocumentDataIdempotent(s: State)
    ensures Reduce(s, ResetDocumentData) == Initial()
    ensures Reduce(Reduce(s, ResetDocumentData), ResetDocumentData) == Reduce(s, ResetDocumentData)
  {
  }

  /**
   * Resetting one template removes its record and nothing else: the other
   * entries and the active template stay, the flag is cleared, and a second
   * reset of the same template changes nothing.
   */
  lemma ResetCurrentTemplateSpec(s: State, t: string)
    ensures var s' := Reduce(s, ResetCurrentTemplate(t));
      && !HasRecord(s', t)
      && s'.activeTemplate == s.activeTemplate
      && !s'.hasUnsavedChanges
      && (forall k :: k != t ==> (k in s'.data <==> k in s.data))
      && (forall k :: k in s'.data && k != t ==> s'.data[k] == s.data[k])
      && (HasRecord(s, t) ==> t !in s'.data)
      && (!HasRecord(s, t) ==> s'.data == s.data)
      && Reduce(s', ResetCurrentTemplate(t)) == s'
  {
  }

  /** An update overwrites the entry wholesale: a later update of the same template wins. */
  lemma LastUpdateWins(s: State, t: string, d1: Doc, d2: Doc)
    ensures ReduceAll(s, [UpdateDocumentData(t, d1), UpdateDocumentData(t, d2)]) == Reduce(s, UpdateDocumentData(t, d2))
  {
    ReduceAllTwo(s, UpdateDocumentData(t, d1), UpdateDocumentData(t, d2));
    assert s.data[t := d1][t := d2] == s.data[t := d2];
  }

  /** Storing a record and then resetting that template leaves the other templates as they were before the store. */
  lemma UpdateThenResetForgets(s: State, t: string, d: Doc)
    requires Truthy(d)
    ensures var s' := ReduceAll(s, [UpdateDocumentData(t, d), ResetCurrentTemplate(t)]);
      s'.data == s.data - {t} && s'.activeTemplate == s.activeTemplate && !s'.hasUnsavedChanges
  {
    var s1 := Reduce(s, UpdateDocumentData(t, d));
    ReduceAllTwo(s, UpdateDocumentData(t, d), ResetCurrentTemplate(t));
    assert s1.data[t := d] - {t} == s.data - {t};
  }

  // ---- The persisted mirror ----

  /** The key redux-persist stores the whole state under. */
  const PersistKey := "persist:prd-generator"

  /** `JSON.parse(parsedData.documents)`: the slice as persisted; `data` is `None` when absent or falsy. */
  datatype PersistedSlice = PersistedSlice(data: Option<map<string, Doc>>, activeTemplate: string, hasUnsavedChanges: bool)

  /**
   * A stored value. `Persisted` is text that parses to an object: its
   * `documents` field parsed (`None` when absent, falsy or not parseable)
   * and its other fields as they are. `Text` is any other text: empty,
   * not JSON, or JSON that is not an object.
   */
  datatype Stored = Text(text: string) | Persisted(documents: Option<PersistedSlice>, others: map<string, string>)

  /**
   * The rewrite `resetCurrentTemplate` makes of the stored state: `None` when
   * it writes nothing, otherwise the value it writes back.
   */
  function MirrorWithout(stored: Option<Stored>, t: string): Option<Stored>
  {
    match stored
    case Some(Persisted(Some(slice), others)) =>
      if slice.data.Some? && t in slice.data.value && Truthy(slice.data.value[t]) then
        Some(Persisted(Some(slice.(data := Some(slice.data.value - {t}), hasUnsavedChanges := false)), others))
      else None
    case _ => None
  }

  /** The stored slice holds a record for `t`. */
  predicate StoredHasRecord(stored: Option<Stored>, t: string)
  {
    && stored.Some? && stored.value.Persisted? && stored.value.documents.Some?
    && var data := stored.value.documents.value.data;
      data.Some? && t in data.value && Truthy(data.value[t])
  }

  /**
   * The mirror is written exactly when the stored slice holds a record for
   * `t`; the written slice lacks `t`, keeps every other stored entry and its
   * active template, has the flag cleared, and the rest of the stored object
   * is kept.
   */
  lemma MirrorWithoutSpec(stored: Option<Stored>, t: string)
    ensures MirrorWithout(stored, t).Some? <==> StoredHasRecord(stored, t)
    ensures StoredHasRecord(stored, t) ==>
      var old_ := stored.value;
      var new_ := MirrorWithout(stored, t).value;
      && new_.Persisted? && new_.others == old_.others && new_.documents.Some?
      && new_.documents.value.data.Some?
      && t !in new_.documents.value.data.value
      && (forall k :: k != t ==> (k in new_.documents.value.data.value <==> k in old_.documents.value.data.value))
      && (forall k :: k in new_.documents.value.data.value ==> new_.documents.value.data.value[k] == old_.documents.value.data.value[k])
      && new_.documents.value.activeTemplate == old_.documents.value.activeTemplate
      && !new_.documents.value.hasUnsavedChanges
  {
  }

  /** After one rewrite the stored slice has no record for `t`, so a second reset of `t` writes nothing. */
  lemma MirrorWithoutOnce(stored: Option<Stored>, t: string)
    requires MirrorWithout(stored, t).Some?
    ensures MirrorWithout(MirrorWithout(stored, t), t).None?
  {
  }

  /** The stored value under `key`, as `getItem` returns it on a working storage. */
  function Lookup(values: map<string, Stored>, key: string): Option<Stored>
  {
    if key in values then Some(values[key]) else None
  }

  /** The storage after `resetCurrentTemplate(t)`: the mirror rewrite, when storage works and there is one to make. */
  function StorageAfterReset(values: map<string, Stored>, available: bool, hadRecord: bool, t: string): map<string, Stored>
  {
    var w := MirrorWithout(Lookup(values, PersistKey), t);
    if hadRecord && available && w.Some? then values[PersistKey := w.value] else values
  }

  /** The Immer draft of the slice, mutated in place by the reducers. */
  class DocumentStore {
    var data: map<string, Doc>
    var activeTemplate: string
    var hasUnsavedChanges: bool

    /** The state the draft currently holds. */
    function Snapshot(): State
      reads this
    {
      State(data, activeTemplate, hasUnsavedChanges)
    }

    constructor ()
      ensures Snapshot() == Initial()
    {
      data := map[];
      activeTemplate := "prd";
      hasUnsavedChanges := false;
    }

    method SetActiveTemplate(id: string)
      modifies this
      ensures Snapshot() == Reduce(old(Snapshot()), Action.SetActiveTemplate(id))
    {
      activeTemplate := id;
      hasUnsavedChanges := false;
    }

    method UpdateDocumentData(templateId: string, doc: Doc)
      modifies this
      ensures Snapshot() == Reduce(old(Snapshot()), Action.UpdateDocumentData(templateId, doc))
    {
      data := data[templateId := doc];
      hasUnsavedChanges := true;
    }

    method SetHasUnsavedChanges(flag: bool)
      modifies this
      ensures Snapshot() == Reduce(old(Snapshot()), Action.SetHasUnsavedChanges(flag))
    {
      hasUnsavedChanges := flag;
    }

    /** Back to the initial state, then a best-effort removal of the persisted copy. */
    method ResetDocumentData(storage: LocalStorage<Stored>)
      requires storage.Valid()
      modifies this, storage
      ensures Snapshot() == Reduce(old(Snapshot()), Action.ResetDocumentData)
      ensures storage.Valid() && storage.available == old(storage.available)
      ensures storage.values == if storage.available then old(storage.values) - {PersistKey} else old(storage.values)
    {
      data := map[];
      activeTemplate := "prd";
      hasUnsavedChanges := false;
      var thrown := storage.RemoveItem(PersistKey);
    }

    /**
     * Drops the record of one template, then rewrites the persisted copy
     * without it. A storage that throws leaves the persisted copy as it was
     * and the in-memory reset in place.
     */
    method ResetCurrentTemplate(templateId: string, storage: LocalStorage<Stored>)
      requires storage.Valid()
      modifies this, storage
      ensures Snapshot() == Reduce(old(Snapshot()), Action.ResetCurrentTemplate(templateId))
      ensures storage.Valid() && storage.available == old(storage.available)
      ensures storage.values == StorageAfterReset(old(storage.values), old(storage.available), old(HasRecord(Snapshot(), templateId)), templateId)
    {
      if templateId in data && Truthy(data[templateId]) {
        data := data - {templateId};
        hasUnsavedChanges := false;
        var thrown, persisted := storage.GetItem(PersistKey);
        if !thrown {
          var rewritten := MirrorWithout(persisted, templateId);
          if rewritten.Some? {
            thrown := storage.SetItem(PersistKey, rewritten.value);
          }
        }
      } else {
        hasUnsavedChanges := false;
      }
    }
  }
}
