# DocGen document store and generators, modelled in Dafny

DocGen is a browser form builder for software-design documents. It has six generators: PRD, HLD, LLD, DBDD, prototype and SRS. Each generator holds one form record, edits it with a few list and row helpers, and serialises it to Markdown for download. Above the generators sits a Redux slice that keeps one record per template id, the active template and an unsaved-changes flag. redux-persist mirrors that slice into `localStorage`. The page, the sidebar and the status indicator derive what they show from it.

The project models both parts:

- **The document store.**
  - `DocumentSlice.Reduce` is the reducer over plain values.
  - `DocumentSlice.DocumentStore` is the draft the reducers mutate in place. Each of its methods is proved to do what `Reduce` says.
  - `BrowserStorage.LocalStorage` is the browser storage, with ordered keys and a flag for a storage that throws.
  - `UseDocumentStorage` holds the hook, including the two-pass `resetAllData` loop.
  - `Page`, `Sidebar` and `DataStatusIndicator` hold the handlers and the derived views.
- **The generators.**
  - A form record is a `map` from the generator's field enum to a `Field`: text, a string list, a row list, or DBDD's map from table name to rows.
  - `FormRecord` has the five editing helpers, once, for every generator.
  - `Markdown` has the filtered bullet lists, the tables with one line per row, and the per-row sections.
  - Each generator module (`Prd`, `Hld`, `Lld`, `Srs`, `Prototype`, `Dbdd`) holds the following:
    - its default record, with the clock as a `today` parameter;
    - the row templates its `generateMarkdown` interpolates;
    - its export file name;
    - what its form can and cannot do to the record.

The code and the written design differ in one place, and the model follows the code. `resetCurrentTemplate` deletes an entry only when it is truthy. A falsy entry stays, and so does the template's saved mark. Such an entry is the `null` that saving writes when no record exists yet.

## Model

| member | source | states |
|---|---|---|
| `Text.TrimEmptyIffBlank` | components/prd-generator.tsx:208 | `item.trim()` is empty exactly when every character is JavaScript whitespace |
| `Text.KeepNonBlankMembers` | components/prd-generator.tsx:208 | the filter keeps an entry iff it is in the list and not blank |
| `Text.KeepNonBlankAppend` | components/prd-generator.tsx:208 | filtering distributes over concatenation, so kept entries keep their order |
| `Text.KeepNonBlankAllKept` | components/prd-generator.tsx:208 | a list with no blank entry passes the filter unchanged |
| `Text.JoinAppend` | components/prd-generator.tsx:219 | joining two non-empty lists puts exactly one separator between their joins |
| `Text.SplitJoinLines` | components/prd-generator.tsx:219 | newline-free lines joined by `\n` split back into the same lines |
| `Text.OrElse` | components/prd-generator.tsx:306 | `s \|\| fallback` on strings: a non-empty `s` is kept, the empty string is replaced |
| `Text.NatToString` | components/dbdd-generator.tsx:219 | a number prints as a non-empty run of decimal digits |
| `Text.NatToStringValue` | components/dbdd-generator.tsx:219 | the printed digits denote the number itself, read most significant digit first |
| `Text.NatToStringInjective` | components/dbdd-generator.tsx:219 | different numbers print differently |
| `ListEdit.RemoveAtSpec` | components/prd-generator.tsx:149-158 | filtering out index `i` deletes exactly position `i` and keeps the order of the rest; an out-of-range index changes nothing |
| `ListEdit.RemoveAtLength` | components/prd-generator.tsx:149-158 | the length drops by one exactly when the index is in range |
| `ListEdit.ReplaceAt` | components/prd-generator.tsx:160-169 | replacing at an index keeps the length, changes only that position, and ignores an out-of-range index |
| `ListEdit.SetCell` | components/prd-generator.tsx:171-182 | setting a cell changes only key `k` of row `i`: other rows and other keys are kept |
| `FormRecord.UpdateField` | components/prd-generator.tsx:130-136 | the field gets the new value and every other field is unchanged |
| `FormRecord.AddArrayItem` | components/prd-generator.tsx:138-147 | the list gets the entry appended after its old entries; other fields and the field's kind are kept |
| `FormRecord.RemoveArrayItem` | components/prd-generator.tsx:149-158 | removing an entry leaves the other fields and the list's kind unchanged |
| `FormRecord.RemoveArrayItemSpec` | components/prd-generator.tsx:149-158 | for an in-range index the list becomes `old[..i] + old[i+1..]`; for any other index it is unchanged |
| `FormRecord.UpdateArrayItem` | components/prd-generator.tsx:160-169 | the list keeps its length, only position `i` takes the new entry, and an out-of-range index changes nothing |
| `FormRecord.UpdateTableRow` | components/prd-generator.tsx:171-182 | the row count is kept, row `i` gets `[k := v]`, and the other rows and fields are unchanged |
| `FormRecord.HelpersKeepShape` | components/prd-generator.tsx:130-182 | every helper keeps each field of the record at its declared kind |
| `FormRecord.GuardedRemoveKeepsListsNonEmpty` | components/prd-generator.tsx:476 | with the delete button disabled at length 1, removal never empties a list |
| `FormRecord.OtherEditsKeepListsNonEmpty` | components/prd-generator.tsx:130-182 | typing, appending, replacing and cell edits never empty a list |
| `FormRecord.EditKeepsShape` | components/prd-generator.tsx:130-182 | one enabled form edit keeps the record conforming with every list non-empty |
| `FormRecord.EditsKeepShape` | components/prd-generator.tsx:130-182 | any session of form edits keeps the record conforming with every list non-empty |
| `FormRecord.UneditedFieldUnchanged` | components/prd-generator.tsx:130-182 | a field no edit of the session names ends as it started |
| `FormRecord.CellEditsKeepRowCount` | components/prd-generator.tsx:171-182 | a session that edits a table only through cell edits keeps its row count |
| `Markdown.CellText` | components/srs-generator.tsx:245 | `${row.key}` on a row without the key prints `undefined` |
| `Markdown.MissingKeyPrintsUndefined` | components/srs-generator.tsx:245 | a template that reads a key its row lacks prints `undefined` in that place |
| `Markdown.TableLines` | components/prd-generator.tsx:219 | `rows.map(template)` gives one line per row, in order |
| `Markdown.TableTextAppend` | components/dbdd-generator.tsx:219-223 | appending a row to a table appends its line, after a line break unless the table was empty |
| `Markdown.TableTextOneLinePerRow` | components/prd-generator.tsx:219 | a table section splits into exactly one text line per row, blank rows included, when no cell holds a line break |
| `Markdown.BulletLinesMembers` | components/prd-generator.tsx:208 | a bullet line for `x` appears iff `x` is in the list and not blank |
| `Markdown.BulletLinesAppend` | components/prd-generator.tsx:208 | bullet lines of `a + b` are those of `a` then those of `b` |
| `Markdown.BulletLinesSingle` | components/prd-generator.tsx:208 | a blank entry yields no line; any other entry yields exactly its marked line |
| `Markdown.FillBlankRow` | components/prd-generator.tsx:219 | a row with an empty cell for every key the template reads prints the template's fixed text and never `undefined` |
| `Markdown.SectionsAppend` | components/lld-generator.tsx:181-186 | per-row sections of `a + b` are those of `a`, one blank line, then those of `b` |
| `Prd.DefaultShape` | components/prd-generator.tsx:73-96 | the default record has every field at its declared kind, exactly one entry in every list, today's date and status 草稿 |
| `Prd.FormSessionsKeepLists` | components/prd-generator.tsx:476 | every record the form can reach from the default keeps its shape and a non-empty list in every list field |
| `Prd.FreshRowsPrintBlank` | components/prd-generator.tsx:184-298 | every column a table prints exists in the row it starts with or appends, so such a row prints no `undefined` |
| `Prd.ExportFileName` | components/prd-generator.tsx:306 | the download is `${documentName \|\| 'PRD'}_v1.0.md` |
| `Hld.DefaultShape` | components/hld-generator.tsx:69-89 | the default record has version v1.0, status 草稿 and exactly one entry in every list |
| `Hld.FormSessionsKeepLists` | components/hld-generator.tsx:445 | every reachable record keeps its shape and non-empty lists |
| `Hld.FreshRowsPrintBlank` | components/hld-generator.tsx:144-258 | default and appended rows have every column the tables print |
| `Hld.ExportFileName` | components/hld-generator.tsx:266 | the download is `${systemName \|\| 'HLD'}_${version}.md` |
| `Lld.DefaultShape` | components/lld-generator.tsx:62-80 | the default record conforms and has exactly one entry in every list |
| `Lld.DefaultValues` | components/lld-generator.tsx:62-80 | the default version is v1.0 and the date is today's |
| `Lld.FormSessionsKeepLists` | components/lld-generator.tsx:332 | every reachable record keeps its shape and non-empty lists |
| `Lld.FreshRowsPrintBlank` | components/lld-generator.tsx:135-211 | default and appended rows have every column the tables and method sections print |
| `Lld.KeyMethodSectionText` | components/lld-generator.tsx:181-186 | a key method prints as `## name`, a blank line, then a java fence holding the signature and then the pseudocode |
| `Lld.ExportFileName` | components/lld-generator.tsx:219 | the download is `lld-${moduleName \|\| 'module'}-${version}.md` |
| `Srs.DefaultShape` | components/srs-generator.tsx:64-113 | the default record conforms; every list outside the three fixed tables has exactly one entry |
| `Srs.DefaultValues` | components/srs-generator.tsx:64-95 | version v1.0, today's date, and 4, 3 and 8 rows in the introduction, general-description and use-case tables |
| `Srs.LabelRows` | components/srs-generator.tsx:71-95 | each fixed row carries its caption in order and an empty `content` |
| `Srs.FormSessionsKeepLists` | components/srs-generator.tsx:473 | every reachable record keeps its shape and non-empty lists |
| `Srs.FixedTablesKeepRows` | components/srs-generator.tsx:389-397 | edited only through cell edits, the three fixed tables keep 4, 3 and 8 rows through any session |
| `Srs.FreshRowsPrintBlank` | components/srs-generator.tsx:168-273 | with the corrected interface and risk rows, every fresh row has every column its table prints |
| `Srs.InterfaceRowAsWrittenPrintsUndefined` | components/srs-generator.tsx:105-107 | the default interface row, as written, prints `undefined` in the interface table |
| `Srs.RiskRowAsWrittenPrintsUndefined` | components/srs-generator.tsx:109-111 | the default risk row, as written, prints `undefined` in the risk table's level column |
| `Srs.ExportFileName` | components/srs-generator.tsx:281 | the download is `srs-${moduleName \|\| 'module'}-${version}.md` |
| `Prototype.DefaultShape` | components/prototype-generator.tsx:70-111 | the default record conforms; every list other than the info and link tables has exactly one entry |
| `Prototype.DefaultValues` | components/prototype-generator.tsx:70-111 | version v1.0, today's date, 5 info rows and 3 link rows |
| `Prototype.InfoRows` | components/prototype-generator.tsx:78-84 | each preset info row has its item and content, in order |
| `Prototype.LinkRows` | components/prototype-generator.tsx:85-89 | each preset link row has its platform and permission and an empty link, in order |
| `Prototype.FormSessionsKeepLists` | components/prototype-generator.tsx:440 | every reachable record keeps its shape and non-empty lists |
| `Prototype.FixedTablesKeepRows` | components/prototype-generator.tsx:386-404 | the info table keeps its 5 rows, and the page details and breakpoints (no controls) keep their defaults |
| `Prototype.FreshRowsPrintBlank` | components/prototype-generator.tsx:159-267 | default and appended rows have every column the tables and page sections print |
| `Prototype.LinkRowText` | components/prototype-generator.tsx:183 | a link row prints `\| platform \| [platform](link) \| permission \|` |
| `Prototype.PageSectionEndsWithImage` | components/prototype-generator.tsx:215-222 | every page section ends with `![pageName](imageUrl)` |
| `Prototype.ExportFileName` | components/prototype-generator.tsx:275 | the download is `prototype-${functionName \|\| 'design'}-${version}.md` |
| `Dbdd.DefaultShape` | components/dbdd-generator.tsx:66-92 | the default record conforms; every list except the information table has one entry |
| `Dbdd.DefaultValues` | components/dbdd-generator.tsx:66-92 | version v1.0, today's date, 6 information rows, one table row (empty name and description, engine InnoDB) and an empty `tableFields` |
| `Dbdd.InfoRows` | components/dbdd-generator.tsx:73-80 | each preset information row has its field and content, in order |
| `Dbdd.NewTableRow` | components/dbdd-generator.tsx:83 | a new table row has an empty name and description and engine InnoDB |
| `Dbdd.NewFieldRow` | components/dbdd-generator.tsx:147-158 | a new field row has `nullable` 否 and every other column empty |
| `Dbdd.ConstructorTableThrows` | components/dbdd-generator.tsx:218 | as written, a table named after an `Object.prototype` member with no fields makes the lookup throw |
| `Dbdd.FieldsOf` | components/dbdd-generator.tsx:218 | the corrected lookup: the table's own field list, or none |
| `Dbdd.FieldsOfAgreesOffPrototype` | components/dbdd-generator.tsx:218 | off the inherited names, the corrected lookup and the one as written agree |
| `Dbdd.AddTableField` | components/dbdd-generator.tsx:147-158 | the named table's field list gets a new field row appended, the list is created if absent, and other tables are untouched |
| `Dbdd.RemoveTableField` | components/dbdd-generator.tsx:160-168 | the named table loses exactly field `i` (an entry is created if absent); other tables are untouched |
| `Dbdd.UpdateTableField` | components/dbdd-generator.tsx:170-180 | one cell of one field of the named table changes (an entry is created if absent); other tables are untouched |
| `Dbdd.DbddEditKeepsShape` | components/dbdd-generator.tsx:113-180 | one enabled DBDD edit, field-list edits included, keeps the record conforming with non-empty lists |
| `Dbdd.DbddEditsKeepShape` | components/dbdd-generator.tsx:113-180 | any session of DBDD edits keeps the record conforming with non-empty lists |
| `Dbdd.FormSessionsKeepLists` | components/dbdd-generator.tsx:541 | every record the DBDD form can reach from the default keeps its shape and non-empty lists |
| `Dbdd.DocumentInfoKeepsRows` | components/dbdd-generator.tsx:390-404 | edited only through cell edits, the information table keeps its row count |
| `Dbdd.DocumentInfoStaysSix` | components/dbdd-generator.tsx:390-404 | the information table has 6 rows in every reachable record |
| `Dbdd.FreshRowsPrintBlank` | components/dbdd-generator.tsx:182-280 | default and appended rows have every column the tables print |
| `Dbdd.DictionaryEntries` | components/dbdd-generator.tsx:217-224 | one dictionary entry per table, in the order of the table list |
| `Dbdd.DictionaryNumbering` | components/dbdd-generator.tsx:219 | the entry of the table at position `i` starts `## 4.`, then digits that denote `i + 1`, then a space |
| `Dbdd.EntryNumbersDistinct` | components/dbdd-generator.tsx:219 | two positions get the same entry number iff they are the same position |
| `Dbdd.AddedFieldIsLastLine` | components/dbdd-generator.tsx:217-224 | adding a field to a table adds exactly its line at the end of that table's entry |
| `Dbdd.RenamedTableShowsNoFields` | components/dbdd-generator.tsx:138-145 | renaming a table leaves `tableFields` unchanged, and under a name with no fields its entry shows an empty field table |
| `Dbdd.ExportFileName` | components/dbdd-generator.tsx:288 | the download is `dbdd-${moduleName \|\| 'module'}-${version}.md` |
| `DocumentSlice.DocumentStore.constructor` | store/documentSlice.ts:13-17 | the store starts with no data, active template `prd` and the flag clear |
| `DocumentSlice.DocumentStore.SetActiveTemplate` | store/documentSlice.ts:23-26 | sets the active template and clears the flag; data unchanged |
| `DocumentSlice.DocumentStore.UpdateDocumentData` | store/documentSlice.ts:27-31 | replaces the entry wholesale and raises the flag |
| `DocumentSlice.DocumentStore.SetHasUnsavedChanges` | store/documentSlice.ts:32-34 | sets the flag to exactly the given value, nothing else |
| `DocumentSlice.DocumentStore.ResetDocumentData` | store/documentSlice.ts:35-49 | back to the initial state, and the persisted key is removed when storage works |
| `DocumentSlice.DocumentStore.ResetCurrentTemplate` | store/documentSlice.ts:50-88 | removes a truthy entry and clears the flag, then rewrites the persisted copy, which a storage that throws leaves alone |
| `DocumentSlice.FlagIsSetByLastAction` | store/documentSlice.ts:23-88 | after any run of actions the flag is the one the last action set: true after an update, `b` after `setHasUnsavedChanges(b)`, false otherwise |
| `DocumentSlice.OtherTemplateUntouched` | store/documentSlice.ts:27-58 | an action that does not name a template leaves its entry present or absent and unchanged |
| `DocumentSlice.UntouchedTemplateKeepsEntry` | store/documentSlice.ts:23-88 | a run of actions that never names a template leaves its entry as it was |
| `DocumentSlice.ActiveTemplatePreserved` | store/documentSlice.ts:23-88 | only `setActiveTemplate` and the full reset change the active template, over any run |
| `DocumentSlice.ResetDocumentDataIdempotent` | store/documentSlice.ts:35-39 | the full reset reaches the initial state from anywhere, so a second reset changes nothing |
| `DocumentSlice.ResetCurrentTemplateSpec` | store/documentSlice.ts:50-87 | resetting a template leaves no record for it, keeps the other entries and the active template, clears the flag, keeps a falsy entry, and is idempotent |
| `DocumentSlice.LastUpdateWins` | store/documentSlice.ts:27-31 | an update overwrites wholesale: of two updates of a template the later wins |
| `DocumentSlice.UpdateThenResetForgets` | store/documentSlice.ts:27-58 | storing a record and then resetting that template leaves data as it was minus that template |
| `DocumentSlice.MirrorWithoutSpec` | store/documentSlice.ts:61-81 | the persisted copy is rewritten iff it holds a record for the template; the rewrite drops only that entry, clears the stored flag and keeps everything else |
| `DocumentSlice.MirrorWithoutOnce` | store/documentSlice.ts:61-81 | after one rewrite, resetting the same template again writes nothing |
| `BrowserStorage.LocalStorage.GetItem` | store/documentSlice.ts:65 | returns the stored value or `null`, or throws on an unavailable storage |
| `BrowserStorage.LocalStorage.SetItem` | store/documentSlice.ts:74 | writes the value and keeps the key's place (a new key goes last), or throws and changes nothing |
| `BrowserStorage.LocalStorage.RemoveItem` | hooks/use-document-storage.ts:32 | removes exactly that key and keeps the order of the rest, or throws and changes nothing |
| `BrowserStorage.LocalStorage.Length` | hooks/use-document-storage.ts:36 | `length` is the number of stored keys |
| `BrowserStorage.LocalStorage.Key` | hooks/use-document-storage.ts:37 | `key(i)` is a stored key for an in-range `i` and `null` otherwise |
| `UseDocumentStorage.UpdateData` | hooks/use-document-storage.ts:12-14 | exactly the effect of `updateDocumentData` |
| `UseDocumentStorage.ChangeTemplate` | hooks/use-document-storage.ts:16-18 | exactly the effect of `setActiveTemplate` |
| `UseDocumentStorage.SetUnsavedChanges` | hooks/use-document-storage.ts:20-22 | exactly the effect of `setHasUnsavedChanges` |
| `UseDocumentStorage.ResetCurrentTemplateData` | hooks/use-document-storage.ts:49-52 | exactly the effect of `resetCurrentTemplate`, storage rewrite included |
| `UseDocumentStorage.MatchingMembers` | hooks/use-document-storage.ts:35-41 | a key is collected iff it is stored, non-empty and starts with `prd-generator` |
| `UseDocumentStorage.CollectKeys` | hooks/use-document-storage.ts:35-41 | the first pass returns the stored keys that start with `prd-generator`, in `key(i)` order |
| `UseDocumentStorage.RemoveKeys` | hooks/use-document-storage.ts:42 | the second pass removes every listed key and keeps every other key and its value, whatever the order of the list |
| `UseDocumentStorage.ResetAllData` | hooks/use-document-storage.ts:24-47 | the store is in the initial state; on a working storage exactly the persisted key and the prefixed keys are gone and all other values are kept; a storage that throws is left as it was |
| `Page.ActiveComponent` | app/page.tsx:127 | a registered id shows its component; any other id shows the PRD generator |
| `Page.DataAwareIffGenerator` | app/page.tsx:130-131 | the action bar and data props go exactly to the ids registered with one of the six generators (`templateComponents`, lines 25-71) |
| `Page.CurrentData` | app/page.tsx:87 | `currentData` is the active entry when it exists and is truthy, and `null` otherwise |
| `Page.SaveComposition` | app/page.tsx:103-107 | save = update then clear: the record is stored under the active template, other entries and the active template are kept, the flag is clear, and the template reads as saved |
| `Page.SaveCurrentData` | components/action-buttons.tsx:72 | saving `currentData` changes no entry when there is a record; with none it stores `null`, which still reads as saved |
| `Page.DataChangeShowsUnsaved` | app/page.tsx:109-111 | a data change stores the record and the indicator shows unsaved changes even though the key exists |
| `Page.ResetComposition` | app/page.tsx:113-118 | after a reset the active template has no current data, the other entries and the active template are kept, the flag is clear, and a removed record reads as not saved |
| `Page.HandleTemplateChange` | app/page.tsx:99-101 | exactly `setActiveTemplate` |
| `Page.HandleSave` | app/page.tsx:103-107 | dispatches update then clear-flag, and returns true |
| `Page.HandleDataChange` | app/page.tsx:109-111 | dispatches the update alone |
| `Page.HandleReset` | app/page.tsx:113-125 | dispatches reset-current then clear-flag, with the persisted copy rewritten as `resetCurrentTemplate` does |
| `Sidebar.SavedTemplates` | components/sidebar.tsx:123 | empty before mount; afterwards exactly the keys of `data` |
| `Sidebar.MarkerAgreesWithPage` | components/sidebar.tsx:135 | after mount, the active button's saved marker agrees with the page's `isSaved`; before mount no marker is drawn |
| `Sidebar.ClickGuard` | components/sidebar.tsx:145-150 | a coming-soon button never switches; an available one switches to its own id; the available ids are the page's data-aware ids |
| `Sidebar.ResetOfferedIffSaved` | components/sidebar.tsx:293 | the reset-all control shows iff mounted and some template has an entry |
| `Sidebar.HandleReset` | components/sidebar.tsx:129-132 | `resetAllData` then switch to `prd`: the store is in its initial state, the control disappears, and storage is cleared as `resetAllData` clears it |
| `DataStatusIndicator.StorageStatus` | components/data-status-indicator.tsx:19 | an absent `storageStatus` reads as `'checking'` |
| `DataStatusIndicator.StorageStatusChoice` | components/data-status-indicator.tsx:44-80 | `'checking'` and `'unavailable'` each have their own indicator; every other status shows available |
| `DataStatusIndicator.Indicator` | components/data-status-indicator.tsx:28-41 | before mount only the placeholder shows, whatever the props |
| `DataStatusIndicator.DataStatusChoice` | components/data-status-indicator.tsx:84-108 | unsaved changes win over saved; each of the three data states shows for exactly one combination of the flags |

## Left out

- JSX rendering is not modelled: cards, selects, tooltips, toasts, dialogs and the collapsed sidebar. Only the choices the markup makes are modelled (`Page`, `Sidebar`, `DataStatusIndicator`).
- React effect sequencing is not modelled: the `initialData` sync, `isInitializedRef`, the `onDataChange` echo, the one-second loading timer and the no-op `setTimeout`. They are scheduling, not record logic.
- `exportMarkdown` is not modelled: the Blob, the object URL and the anchor click are browser I/O. Only the file name and the Markdown text are.
- `GenerateMarkdown` (each generator): carries no contract of its own. Its structure is proved about its parts: `TableText`, `BulletList`, `SectionsText` and `DataDictionary`. The headings and Chinese prose are opaque constant strings.
- store/index.ts is not part of this model. That covers the redux-persist configuration, its rehydration, its own writes of the state after each action, and the storage probe.
- JSON text is not modelled. The persisted value is already structured (`Stored`). Text that does not parse, or that parses to something without a `documents` object, is `Text` or a `documents` of `None`. Every such case writes nothing, as the `catch` does.
- A `setItem` that throws after `getItem` succeeded is not modelled. An example is a quota error in `resetCurrentTemplate`. A storage is either available or throws on every call.
- "No `window`" (server rendering) is modelled as an unavailable storage. Both skip storage and keep the in-memory change.
- `BrowserStorage.LocalStorage`: keys are kept in insertion order. Browsers leave the order of `key(i)` to the implementation. `ResetAllData` is proved for any order.
- `Sidebar.SavedTemplates`: is a set, not the ordered array `Object.keys` returns. Only membership and emptiness are read.
- `DocumentSlice.Doc`: a stored record is opaque. The store only ever asks whether it is truthy.
- The clock is the `today` parameter of the default records. `console.log` and `console.warn` are not modelled.
- components/action-buttons.tsx, coming-soon.tsx, app-logo.tsx and generator-wrapper.tsx are UI and are not part of this model. From action-buttons.tsx only the call `onSave(currentData)` is used, in `Page.SaveCurrentData`.
- `Dbdd.DictionaryEntries`: the entry number uses the table's position plus one for `tables.indexOf(table) + 1`. Each table row is a distinct object, so the two agree.
- `Srs.DefaultShape`: the model's default interface and risk rows use the corrected columns (see Findings). The model's risk add button appends the corrected row as well, where components/srs-generator.tsx:931 appends the as-written one. The rows as written are `Srs.InterfaceRowAsWritten` and `Srs.RiskRowAsWritten`.
- `DocumentSlice.HasRecord`: template ids are never the names of `Object.prototype` members (`constructor`, `toString`, ...). For such an id, `state.data[id]` and `documentData[id] || null` would read the inherited member. Only the nine ids of the sidebar and the page are dispatched, so this case cannot arise.

## Findings

| source | as written | input that shows it | evidently intended | confidence | as-written member | corrected member |
|---|---|---|---|---|---|---|
| components/srs-generator.tsx:105-107 | the default interface row has the keys `interface`, `description` and `format`, but the interface table prints `endpoint`, `method`, `request`, `response` and `errorCode` | export the default SRS record: the interface line reads `undefined` in its cells | the default row carries the columns the table prints | not executed | `Srs.InterfaceRowAsWrittenPrintsUndefined` | `Srs.FreshRowsPrintBlank` |
| components/srs-generator.tsx:109-111 and components/srs-generator.tsx:931 | the default risk row, and the row the risk add button appends, have `probability` and `impact`, but the risk table prints `level`, which the form's select writes | export the default SRS record, or one with an added risk left untouched: that risk line's level cell reads `undefined` | the default row has `risk`, `level` and `mitigation` | not executed | `Srs.RiskRowAsWrittenPrintsUndefined` | `Srs.FreshRowsPrintBlank` |
| components/dbdd-generator.tsx:218 | `tableFields[table.tableName] \|\| []` reads inherited members, so a table named `constructor` gets `Object`, a function, and `.map` throws | name a table `constructor` before adding any field, then render or export | a table with no fields of its own has none | not executed | `Dbdd.ConstructorTableThrows` | `Dbdd.FieldsOf` |
