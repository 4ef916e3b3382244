/**
 * `DataStatusIndicator`: which data state and which storage state the
 * action bar shows, chosen from its props. Before the client mount flag is
 * set only a loading placeholder is shown.
 */
module DataStatusIndicator {
  import opened BrowserStorage

  /** The data state: unsaved changes, saved, or never saved. */
  datatype DataView = UnsavedChanges | Saved | NotSaved

  /** The storage state. */
  datatype StorageView = CheckingStorage | StorageUnavailable | StorageAvailable

  datatype View = Placeholder | Shown(data: DataView, storage: StorageView)

  /** `DataStatus`: unsaved changes first, then saved, then not saved. */
  function DataStatus(hasUnsavedChanges: bool, isSaved: bool): DataView
  {
    if hasUnsavedChanges then UnsavedChanges
    else if isSaved then Saved
    else NotSaved
  }

  /** `StorageStatusIndicator`, with `storageStatus` defaulting to `'checking'` when the prop is not given. */
  function StorageStatus(storageStatus: Option<string>): (v: StorageView)
    ensures storageStatus.None? ==> v == CheckingStorage
  {
    var status := if storageStatus.Some? then storageStatus.value else "checking";
    if status == "checking" then CheckingStorage
    else if status == "unavailable" then StorageUnavailable
    else StorageAvailable
  }

  /** The whole indicator. */
  function Indicator(isClient: bool, hasUnsavedChanges: bool, isSaved: bool, storageStatus: Option<string>): (v: View)
    ensures !isClient <==> v == Placeholder
    ensures isClient ==> v.data == DataStatus(hasUnsavedChanges, isSaved) && v.storage == StorageStatus(storageStatus)
  {
    if !isClient then Placeholder
    else Shown(DataStatus(hasUnsavedChanges, isSaved), StorageStatus(storageStatus))
  }

  /**
   * Unsaved changes take priority over the saved mark, and each of the
   * three data states is shown for exactly one combination of the flags.
   */
  lemma DataStatusChoice(hasUnsavedChanges: bool, isSaved: bool)
    ensures DataStatus(hasUnsavedChanges, isSaved) == UnsavedChanges <==> hasUnsavedChanges
    ensures DataStatus(hasUnsavedChanges, isSaved) == Saved <==> !hasUnsavedChanges && isSaved
    ensures DataStatus(hasUnsavedChanges, isSaved) == NotSaved <==> !hasUnsavedChanges && !isSaved
  {
  }

  /** `'checking'` and `'unavailable'` have their own indicator; every other status reads as available. */
  lemma StorageStatusChoice(status: string)
    ensures StorageStatus(Some(status)) == CheckingStorage <==> status == "checking"
    ensures StorageStatus(Some(status)) == StorageUnavailable <==> status == "unavailable"
    ensures StorageStatus(Some(status)) == StorageAvailable <==> status != "checking" && status != "unavailable"
  {
  }
}
