/**
 * `useDocumentStorage`: thin wrappers that dispatch one slice action each,
 * and `resetAllData`, which resets the slice and then clears every
 * `localStorage` key the application may have written: the redux-persist key
 * and every key starting with `prd-generator`.
 */
module UseDocumentStorage {
  import opened Text
  import opened BrowserStorage
  import opened DocumentSlice

  const KeyPrefix := "prd-generator"

  /** `key && key.startsWith('prd-generator')`: the keys the second pass collects. */
  predicate Collected(key: string)
  {
    key != "" && StartsWith(key, KeyPrefix)
  }

  /** The keys the collecting loop pushes, in the order `key(i)` reports them. */
  function Matching(keys: seq<string>): seq<string>
    decreases |keys|
  {
    if keys == [] then []
    else
      var last := |keys| - 1;
      Matching(keys[..last]) + (if Collected(keys[last]) then [keys[last]] else [])
  }

  /** A key is collected exactly when it is stored and matches the prefix. */
  lemma {:induction false} MatchingMembers(keys: seq<string>, k: string)
    ensures k in Matching(keys) <==> k in keys && Collected(k)
    decreases |keys|
  {
    if keys != [] {
      var last := |keys| - 1;
      MatchingMembers(keys[..last], k);
      assert keys == keys[..last] + [keys[last]];
      assert k in keys <==> k in keys[..last] || k == keys[last];
    }
  }

  /** Whether `resetAllData` removes the key. */
  predicate Cleared(key: string)
  {
    key == PersistKey || Collected(key)
  }

  /** `updateData(t, d)`. */
  method UpdateData(store: DocumentStore, templateId: string, doc: Doc)
    modifies store
    ensures store.Snapshot() == Reduce(old(store.Snapshot()), UpdateDocumentData(templateId, doc))
  {
    store.UpdateDocumentData(templateId, doc);
  }

  /** `changeTemplate(t)`. */
  method ChangeTemplate(store: DocumentStore, templateId: string)
    modifies store
    ensures store.Snapshot() == Reduce(old(store.Snapshot()), SetActiveTemplate(templateId))
  {
    store.SetActiveTemplate(templateId);
  }

  /** `setUnsavedChanges(b)`. */
  method SetUnsavedChanges(store: DocumentStore, hasChanges: bool)
    modifies store
    ensures store.Snapshot() == Reduce(old(store.Snapshot()), SetHasUnsavedChanges(hasChanges))
  {
    store.SetHasUnsavedChanges(hasChanges);
  }

  /** `resetCurrentTemplateData(t)`. */
  method ResetCurrentTemplateData(store: DocumentStore, storage: LocalStorage<Stored>, templateId: string)
    requires storage.Valid()
    modifies store, storage
    ensures store.Snapshot() == Reduce(old(store.Snapshot()), ResetCurrentTemplate(templateId))
    ensures storage.Valid() && storage.available == old(storage.available)
    ensures storage.values == StorageAfterReset(old(storage.values), old(storage.available), old(HasRecord(store.Snapshot(), templateId)), templateId)
  {
    store.ResetCurrentTemplate(templateId, storage);
  }

  /** The first pass: walk `key(0) … key(length - 1)` and keep the keys with the prefix. */
  method CollectKeys(storage: LocalStorage<Stored>) returns (keysToRemove: seq<string>)
    requires storage.Valid()
    ensures keysToRemove == Matching(storage.keys)
    ensures forall k :: k in keysToRemove <==> k in storage.values && Collected(k)
  {
    keysToRemove := [];
    var i := 0;
    while i < storage.Length()
      invariant 0 <= i <= |storage.keys|
      invariant keysToRemove == Matching(storage.keys[..i])
    {
      var key := storage.Key(i);
      assert storage.keys[..i + 1][..i] == storage.keys[..i];
      if key.Some? && Collected(key.value) {
        keysToRemove := keysToRemove + [key.value];
      }
      i := i + 1;
    }
    assert storage.keys[..i] == storage.keys;
    forall k ensures k in keysToRemove <==> k in storage.values && Collected(k) {
      MatchingMembers(storage.keys, k);
    }
  }

  /** The second pass: `keysToRemove.forEach(key => localStorage.removeItem(key))`. */
  method RemoveKeys(storage: LocalStorage<Stored>, keysToRemove: seq<string>)
    requires storage.Valid() && storage.available
    modifies storage
    ensures storage.Valid() && storage.available
    ensures forall k :: k in storage.values <==> k in old(storage.values) && k !in keysToRemove
    ensures forall k :: k in storage.values ==> storage.values[k] == old(storage.values)[k]
  {
    var j := 0;
    while j < |keysToRemove|
      invariant 0 <= j <= |keysToRemove|
      invariant storage.Valid() && storage.available
      invariant forall k :: k in storage.values <==> k in old(storage.values) && k !in keysToRemove[..j]
      invariant forall k :: k in storage.values ==> storage.values[k] == old(storage.values)[k]
    {
      assert keysToRemove[..j + 1] == keysToRemove[..j] + [keysToRemove[j]];
      var thrown := storage.RemoveItem(keysToRemove[j]);
      j := j + 1;
    }
    assert keysToRemove[..j] == keysToRemove;
  }

  /**
   * `resetAllData`: the slice goes back to its initial state first; then, on
   * a working storage, the redux-persist key and every key with the prefix
   * are removed, the matching keys all collected before the first is
   * removed, and every other key keeps its value. A storage that throws
   * leaves storage as it was and the in-memory reset in place.
   */
  method ResetAllData(store: DocumentStore, storage: LocalStorage<Stored>)
    requires storage.Valid()
    modifies store, storage
    ensures store.Snapshot() == Initial()
    ensures storage.Valid() && storage.available == old(storage.available)
    ensures storage.available ==> forall k :: k in storage.values <==> k in old(storage.values) && !Cleared(k)
    ensures !storage.available ==> storage.values == old(storage.values)
    ensures forall k :: k in storage.values ==> k in old(storage.values) && storage.values[k] == old(storage.values)[k]
  {
    store.ResetDocumentData(storage);
    var thrown := storage.RemoveItem(PersistKey);
    if !thrown {
      var keysToRemove := CollectKeys(storage);
      RemoveKeys(storage, keysToRemove);
    }
  }
}
