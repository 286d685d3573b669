/** The front end's settings store: two group counts, their setters, and
    the actions that write them to and read them from browser storage
    under "settings". The stored value is the field `stored` (`None` for a
    missing key). */
module Settings {
  import opened Wrappers

  /** The decoded object under "settings"; either count may be missing. */
  datatype StoredSettings = StoredSettings(regularGroupCount: Option<int>, porGroupCount: Option<int>)

  /** JavaScript's `v || 1` on a stored count: a missing count or 0 gives 1. */
  function OrOne(v: Option<int>): (c: int)
    ensures c != 0
    ensures v.Some? && v.value != 0 ==> c == v.value
    ensures v.None? || v.value == 0 ==> c == 1
  {
    if v.Some? && v.value != 0 then v.value else 1
  }

  /** The object `updateSettings(r, p)` stores. */
  function StoredOf(regular: int, por: int): StoredSettings
  {
    StoredSettings(Some(regular), Some(por))
  }

  /** The two counts after `loadSettings`, from the stored value and the
      counts held before: nothing stored keeps them, otherwise each becomes
      its stored value or 1. */
  function LoadedCounts(stored: Option<StoredSettings>, regular: int, por: int): (c: (int, int))
    ensures stored.None? ==> c == (regular, por)
    ensures stored.Some? ==> c.0 != 0 && c.1 != 0
    ensures stored.Some? ==> c == (OrOne(stored.value.regularGroupCount), OrOne(stored.value.porGroupCount))
  {
    match stored
    case None => (regular, por)
    case Some(s) => (OrOne(s.regularGroupCount), OrOne(s.porGroupCount))
  }

  /** Loading what `updateSettings(r, p)` stored gives back `(r, p)`, with
      a 0 count read back as 1. */
  lemma LoadAfterUpdate(r: int, p: int, regular: int, por: int)
    ensures LoadedCounts(Some(StoredOf(r, p)), regular, por) == (if r != 0 then r else 1, if p != 0 then p else 1)
    ensures r != 0 && p != 0 ==> LoadedCounts(Some(StoredOf(r, p)), regular, por) == (r, p)
  {
  }

  /** Loading twice equals loading once. */
  lemma LoadIdempotent(stored: Option<StoredSettings>, regular: int, por: int)
    ensures var c := LoadedCounts(stored, regular, por);
      LoadedCounts(stored, c.0, c.1) == c
  {
  }

  /** The Vuex module's state together with the browser's stored copy. */
  class SettingsStore {
    var regularGroupCount: int
    var porGroupCount: int
    /** `JSON.parse(localStorage.getItem('settings'))`; `None` when absent. */
    var stored: Option<StoredSettings>

    /** The module's initial state: both counts are 1. */
    constructor (stored: Option<StoredSettings>)
      ensures regularGroupCount == 1 && porGroupCount == 1
      ensures this.stored == stored
    {
      regularGroupCount := 1;
      porGroupCount := 1;
      this.stored := stored;
    }

    /** Mutation `setRegularGroupCount`. */
    method SetRegularGroupCount(count: int)
      modifies this`regularGroupCount
      ensures regularGroupCount == count
    {
      regularGroupCount := count;
    }

    /** Mutation `setPorGroupCount`. */
    method SetPorGroupCount(count: int)
      modifies this`porGroupCount
      ensures porGroupCount == count
    {
      porGroupCount := count;
    }

    /** Action `updateSettings`: set both counts and store both. */
    method UpdateSettings(regular: int, por: int)
      modifies this
      ensures regularGroupCount == regular && porGroupCount == por
      ensures stored == Some(StoredOf(regular, por))
    {
      SetRegularGroupCount(regular);
      SetPorGroupCount(por);
      stored := Some(StoredOf(regular, por));
    }

    /** Action `loadSettings`. */
    method LoadSettings()
      modifies this`regularGroupCount, this`porGroupCount
      ensures (regularGroupCount, porGroupCount) == LoadedCounts(stored, old(regularGroupCount), old(porGroupCount))
      ensures stored.None? ==> regularGroupCount == old(regularGroupCount) && porGroupCount == old(porGroupCount)
    {
      var settings := stored;
      if settings.Some? {
        SetRegularGroupCount(OrOne(settings.value.regularGroupCount));
        SetPorGroupCount(OrOne(settings.value.porGroupCount));
      }
    }
  }

  /** `updateSettings(r, p)` then `loadSettings` restores `(r, p)` when both
      are non-zero. */
  method UpdateThenLoad(s: SettingsStore, r: int, p: int)
    modifies s
    ensures s.stored == Some(StoredOf(r, p))
    ensures s.regularGroupCount == (if r != 0 then r else 1)
    ensures s.porGroupCount == (if p != 0 then p else 1)
  {
    s.UpdateSettings(r, p);
    s.LoadSettings();
    LoadAfterUpdate(r, p, r, p);
  }
}
