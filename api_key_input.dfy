/** The credential form of `src/components/ApiKeyInput.tsx`: a text field (`apiKey`), a
    "saved" flag (`isSaved`) and the browser's `localStorage`, which the form reads
    once when it mounts and writes when the key is saved. */
module ApiKeyInput {
  import opened Wrappers
  import opened Strings
  import ProviderClient

  /** The storage entry the form reads and writes, exactly as the form spells it. */
  const StorageKey := "openai_api_key"

  const BlankKeyMessage := "Please enter a valid API key"
  const SavedMessage := "API key saved successfully"

  /** The toast a save attempt raises. */
  datatype SaveOutcome = Saved(message: string) | Rejected(message: string)

  /** The browser's string-keyed `localStorage`. */
  class LocalStorage {
    var items: map<string, string>

    constructor (initial: map<string, string>)
      ensures items == initial
    {
      items := initial;
    }

    /** `localStorage.setItem(key, value)`. */
    method SetItem(key: string, value: string)
      modifies this
      ensures items == old(items)[key := value]
    {
      items := items[key := value];
    }
  }

  class ApiKeyForm {
    var apiKey: string
    var isSaved: bool
    const store: LocalStorage

    /** The initial render: an empty field, not saved. */
    constructor (store: LocalStorage)
      ensures this.store == store
      ensures apiKey == "" && !isSaved
    {
      this.store := store;
      apiKey := "";
      isSaved := false;
    }

    /** The mount effect: a stored, non-empty key fills the field and marks it saved;
        a missing or empty entry leaves the form as it is. */
    method Mount()
      modifies this
      ensures var stored := ProviderClient.GetItem(store.items, StorageKey);
              if stored.Some? && stored.value != ""
              then apiKey == stored.value && isSaved
              else apiKey == old(apiKey) && isSaved == old(isSaved)
    {
      var stored := ProviderClient.GetItem(store.items, StorageKey);
      if stored.Some? && stored.value != "" {
        apiKey := stored.value;
        isSaved := true;
      }
    }

    /** The input's `onChange`: the field takes the typed value and is no longer saved. */
    method Edit(value: string)
      modifies this
      ensures apiKey == value && !isSaved
    {
      apiKey := value;
      if isSaved {
        isSaved := false;
      }
    }

    /** `handleSaveKey`: a blank key is refused and nothing changes; otherwise the
        trimmed key is stored under `StorageKey`, no other entry is touched, and the
        form is marked saved. The field itself keeps what was typed. */
    method SaveKey() returns (outcome: SaveOutcome)
      modifies store, this
      ensures apiKey == old(apiKey)
      ensures outcome.Rejected? <==> AllWhitespace(apiKey)
      ensures outcome.Rejected? ==>
                outcome.message == BlankKeyMessage
                && store.items == old(store.items) && isSaved == old(isSaved)
      ensures outcome.Saved? ==>
                outcome.message == SavedMessage
                && store.items == old(store.items)[StorageKey := Trim(apiKey)] && isSaved
    {
      TrimEmptyIffBlank(apiKey);
      if Trim(apiKey) == "" {
        return Rejected(BlankKeyMessage);
      }
      store.SetItem(StorageKey, Trim(apiKey));
      isSaved := true;
      outcome := Saved(SavedMessage);
    }
  }

  /** Typing a key, saving it, and mounting a fresh form over the same storage: a
      non-blank key comes back trimmed and marked saved; a blank one is refused and the
      fresh form shows whatever storage held before. */
  method SaveThenRemount(initial: map<string, string>, typed: string)
    returns (outcome: SaveOutcome, reloadedKey: string, reloadedSaved: bool)
    ensures outcome.Saved? <==> !AllWhitespace(typed)
    ensures outcome.Saved? ==> reloadedKey == Trim(typed) && reloadedSaved
    ensures outcome.Rejected? ==>
              var stored := ProviderClient.GetItem(initial, StorageKey);
              if stored.Some? && stored.value != ""
              then reloadedKey == stored.value && reloadedSaved
              else reloadedKey == "" && !reloadedSaved
  {
    var store := new LocalStorage(initial);
    var form := new ApiKeyForm(store);
    form.Edit(typed);
    outcome := form.SaveKey();
    if outcome.Saved? {
      TrimEmptyIffBlank(typed);
    }
    var reopened := new ApiKeyForm(store);
    reopened.Mount();
    reloadedKey, reloadedSaved := reopened.apiKey, reopened.isSaved;
  }

  /** Editing after a save clears the saved mark but leaves the stored key in place. */
  method EditAfterSave(initial: map<string, string>, typed: string, edited: string)
    returns (stored: Option<string>, shownSaved: bool)
    requires !AllWhitespace(typed)
    ensures stored == Some(Trim(typed))
    ensures !shownSaved
  {
    var store := new LocalStorage(initial);
    var form := new ApiKeyForm(store);
    form.Edit(typed);
    var _ := form.SaveKey();
    form.Edit(edited);
    stored, shownSaved := ProviderClient.GetItem(store.items, StorageKey), form.isSaved;
  }

  /** The key this form saves is not one the request client reads: whatever is stored
      under `StorageKey`, the client's provider and credential stay the same. */
  lemma SavedKeyUnusedByClient(storage: map<string, string>, key: string)
    ensures ProviderClient.GetApiConfig(storage[StorageKey := key]) == ProviderClient.GetApiConfig(storage)
  {
    assert StorageKey != ProviderClient.ActiveProviderKey;
    assert StorageKey != ProviderClient.DeepSeekKeyName && StorageKey != ProviderClient.OpenRouterKeyName;
  }
}
