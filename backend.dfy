/** The FastAPI backend's record store: the staff table, the nested
    year -> month -> schedule file, the settings lookup and the seeding
    of default data files. Files on disk are fields of a `DataDir`;
    each HTTP handler is a method, and an `HTTPException` is an `Err`. */
module Backend {
  import opened Wrappers

  /** An `HTTPException`: status code and detail text. */
  datatype HttpError = HttpError(status: int, detail: string)

  datatype Result<T> = Ok(value: T) | Err(error: HttpError)

  const NurseNotFound := HttpError(404, "Nurse not found")
  const SettingsNotFound := HttpError(404, "Settings not found")
  const NoSchedules := HttpError(404, "No monthly schedules found")
  const MonthNotFound := HttpError(404, "Schedule for specified month not found")

  /** The JSON values the data files hold (floats are not modelled). */
  datatype Json =
    | JNull
    | JBool(b: bool)
    | JInt(i: int)
    | JStr(s: string)
    | JArray(items: seq<Json>)
    | JObject(fields: map<string, Json>)

  /** Python truthiness of a decoded JSON value, as `if settings:` uses it. */
  predicate Truthy(v: Json)
  {
    match v
    case JNull => false
    case JBool(b) => b
    case JInt(i) => i != 0
    case JStr(s) => s != ""
    case JArray(items) => items != []
    case JObject(fields) => fields != map[]
  }

  // ---------------------------------------------------------------------
  // Staff table (data/nurses.json, key "nurses")
  // ---------------------------------------------------------------------

  /** One record of the staff table. `active` is `None` when the record
      has no "active" key. */
  datatype Nurse = Nurse(id: int, name: string, role: string, group: int, active: Option<bool>)

  /** The body of `PUT /api/nurses/{id}`: `group` is required, `active`
      optional. */
  datatype NurseUpdate = NurseUpdate(group: int, active: Option<bool>)

  /** The record `n` after `u` is applied to it. */
  function Apply(n: Nurse, u: NurseUpdate): (m: Nurse)
    ensures m.group == u.group
    ensures u.active.Some? ==> m.active == u.active
    ensures u.active.None? ==> m.active == n.active
    ensures m.id == n.id && m.name == n.name && m.role == n.role
  {
    // `group` is a required int, so main.py's `is not None` test always holds.
    n.(group := u.group, active := if u.active.Some? then u.active else n.active)
  }

  /** The index of the first record with the given id, if any. */
  function FindById(ns: seq<Nurse>, id: int): (k: Option<nat>)
    ensures k.None? <==> forall j :: 0 <= j < |ns| ==> ns[j].id != id
    ensures k.Some? ==> k.value < |ns| && ns[k.value].id == id
    ensures k.Some? ==> forall j :: 0 <= j < k.value ==> ns[j].id != id
  {
    if ns == [] then None
    else if ns[0].id == id then Some(0)
    else match FindById(ns[1..], id)
      case None => None
      case Some(k) => Some(k + 1)
  }

  /** The table after `update_nurse(id, u)`, or `None` for the 404 case:
      only the first record with that id changes. */
  function UpdateInTable(ns: seq<Nurse>, id: int, u: NurseUpdate): (r: Option<seq<Nurse>>)
    ensures r.None? <==> forall j :: 0 <= j < |ns| ==> ns[j].id != id
    ensures r.Some? ==> |r.value| == |ns|
    ensures r.Some? ==>
      exists k :: 0 <= k < |ns| && ns[k].id == id
        && (forall j :: 0 <= j < k ==> ns[j].id != id)
        && r.value[k] == Apply(ns[k], u)
        && (forall j :: 0 <= j < |ns| && j != k ==> r.value[j] == ns[j])
  {
    match FindById(ns, id)
    case None => None
    case Some(k) => Some(ns[k := Apply(ns[k], u)])
  }

  /** Every record with its group set to 0, nothing else changed. */
  function ResetGroups(ns: seq<Nurse>): (r: seq<Nurse>)
    ensures |r| == |ns|
    ensures forall i :: 0 <= i < |ns| ==> r[i] == ns[i].(group := 0)
  {
    if ns == [] then [] else [ns[0].(group := 0)] + ResetGroups(ns[1..])
  }

  lemma ResetGroupsAllZero(ns: seq<Nurse>)
    ensures forall i :: 0 <= i < |ns| ==> ResetGroups(ns)[i].group == 0
    ensures forall i :: 0 <= i < |ns| ==>
      var n, m := ns[i], ResetGroups(ns)[i];
      m.id == n.id && m.name == n.name && m.role == n.role && m.active == n.active
  {
  }

  lemma ResetGroupsIdempotent(ns: seq<Nurse>)
    ensures ResetGroups(ResetGroups(ns)) == ResetGroups(ns)
  {
  }

  /** Repeating a successful update changes nothing more. */
  lemma UpdateInTableIdempotent(ns: seq<Nurse>, id: int, u: NurseUpdate)
    requires UpdateInTable(ns, id, u).Some?
    ensures UpdateInTable(UpdateInTable(ns, id, u).value, id, u) == UpdateInTable(ns, id, u)
  {
    var k := FindById(ns, id).value;
    var r := UpdateInTable(ns, id, u).value;
    assert r == ns[k := Apply(ns[k], u)];
    assert FindById(r, id) == Some(k);
    assert Apply(r[k], u) == r[k];
    assert r[k := Apply(r[k], u)] == r;
  }

  // ---------------------------------------------------------------------
  // Monthly schedules (data/monthly_schedule.json)
  // ---------------------------------------------------------------------

  /** One row of a stored month. */
  datatype MonthlyScheduleItem = MonthlyScheduleItem(
    name: string, role: string, group: int, shifts: seq<string>,
    vacationDays: Option<int>, accumulatedLeave: Option<int>)

  datatype MonthlySchedule = MonthlySchedule(year: int, month: int, schedule: seq<MonthlyScheduleItem>)

  /** The decoded file: year -> month -> schedule. The source keys both
      levels by `str(...)` of an int, which is injective, so the keys are
      the ints themselves here. */
  type ScheduleFile = map<int, map<int, MonthlySchedule>>

  /** The entry stored under (year, month), if the file exists and has it. */
  function Entry(file: Option<ScheduleFile>, year: int, month: int): Option<MonthlySchedule>
  {
    if file.Some? && year in file.value && month in file.value[year]
    then Some(file.value[year][month]) else None
  }

  /** `get_monthly_schedule(year, month)` on the file contents `file`
      (`None` when the file does not exist). */
  function GetMonthlySchedule(file: Option<ScheduleFile>, year: int, month: int): (r: Result<MonthlySchedule>)
    ensures file.None? ==> r == Err(NoSchedules)
    ensures file.Some? && Entry(file, year, month).None? ==> r == Err(MonthNotFound)
    ensures r.Ok? <==> Entry(file, year, month).Some?
    ensures r.Ok? ==> r.value == file.value[year][month]
  {
    if file.None? then Err(NoSchedules)
    else if year in file.value && month in file.value[year] then Ok(file.value[year][month])
    else Err(MonthNotFound)
  }

  /** The file after `save_monthly_schedule(s)`: a missing file starts as
      `{}`, a missing year as `{}`, and the (year, month) entry is
      overwritten with `s`. */
  function Upsert(file: Option<ScheduleFile>, s: MonthlySchedule): (r: ScheduleFile)
    ensures r.Keys == file.GetOr(map[]).Keys + {s.year}
    ensures r[s.year].Keys == (if file.Some? && s.year in file.value then file.value[s.year].Keys else {}) + {s.month}
    ensures Entry(Some(r), s.year, s.month) == Some(s)
    ensures forall y, m :: y != s.year || m != s.month ==> Entry(Some(r), y, m) == Entry(file, y, m)
  {
    var existing := file.GetOr(map[]);
    var months := if s.year in existing then existing[s.year] else map[];
    existing[s.year := months[s.month := s]]
  }

  /** Saving a month and reading it back yields the saved month. */
  lemma SaveThenGet(file: Option<ScheduleFile>, s: MonthlySchedule)
    ensures GetMonthlySchedule(Some(Upsert(file, s)), s.year, s.month) == Ok(s)
  {
  }

  /** Saving a month leaves every other lookup as it was, except that a
      store that did not exist now exists (and answers "month not found"
      instead of "no schedules"). */
  lemma SaveKeepsOtherMonths(file: Option<ScheduleFile>, s: MonthlySchedule, year: int, month: int)
    requires year != s.year || month != s.month
    ensures file.Some? ==> GetMonthlySchedule(Some(Upsert(file, s)), year, month) == GetMonthlySchedule(file, year, month)
    ensures file.None? ==> GetMonthlySchedule(Some(Upsert(file, s)), year, month) == Err(MonthNotFound)
  {
    assert Entry(Some(Upsert(file, s)), year, month) == Entry(file, year, month);
  }

  /** Saving the same month twice equals saving it once. */
  lemma UpsertIdempotent(file: Option<ScheduleFile>, s: MonthlySchedule)
    ensures Upsert(Some(Upsert(file, s)), s) == Upsert(file, s)
  {
    var r := Upsert(file, s);
    assert r[s.year][s.month := s] == r[s.year];
    assert r[s.year := r[s.year]] == r;
  }

  // ---------------------------------------------------------------------
  // Generic JSON files: formula schedules and settings
  // ---------------------------------------------------------------------

  const FormulaPath: string := "data/formula_schedules.json"
  const SettingsPath: string := "data/settings.json"

  /** `load_json(path)`: the decoded contents, `[]` when the file is missing. */
  function LoadJson(files: map<string, Json>, path: string): (v: Json)
    ensures path !in files ==> v == JArray([])
    ensures path in files ==> v == files[path]
  {
    if path in files then files[path] else JArray([])
  }

  /** `get_settings()`: the stored settings, or 404 when they are empty
      or the file is missing. */
  function GetSettings(files: map<string, Json>): (r: Result<Json>)
    ensures SettingsPath !in files ==> r == Err(SettingsNotFound)
    ensures r.Ok? <==> SettingsPath in files && Truthy(files[SettingsPath])
    ensures r.Ok? ==> r.value == files[SettingsPath]
    ensures r.Err? ==> r.error == SettingsNotFound
  {
    var settings := LoadJson(files, SettingsPath);
    if Truthy(settings) then Ok(settings) else Err(SettingsNotFound)
  }

  /** One formula list entry: `{"type": t, "formula_data": []}`. */
  function EmptyFormula(t: string): Json
  {
    JObject(map["type" := JStr(t), "formula_data" := JArray([])])
  }

  const DefaultFormulas: Json :=
    JArray([EmptyFormula("regular"), EmptyFormula("por"), EmptyFormula("leader"), EmptyFormula("secretary")])

  /** The files `initialize_data_files` seeds, in order. */
  const InitialFiles: seq<string> := [FormulaPath, SettingsPath]

  /** What `initialize_data_files` writes to an absent `path`: only the
      formula list is non-empty; every other seeded file is empty, which
      `if settings:` reads as false. */
  function DefaultContent(path: string): (v: Json)
    ensures Truthy(v) <==> path == FormulaPath
  {
    if path == FormulaPath then DefaultFormulas else JObject(map[])
  }

  /** `files` after each of `paths`, in order, is seeded when absent. */
  function SeedFiles(files: map<string, Json>, paths: seq<string>): (r: map<string, Json>)
    decreases |paths|
    ensures forall p :: p in paths ==> p in r && r[p] == (if p in files then files[p] else DefaultContent(p))
    ensures forall p :: p !in paths ==> (p in r <==> p in files)
    ensures forall p :: p !in paths && p in files ==> r[p] == files[p]
  {
    if paths == [] then files
    else
      var before := SeedFiles(files, paths[..|paths| - 1]);
      var p := paths[|paths| - 1];
      if p in before then before else before[p := DefaultContent(p)]
  }

  /** Seeding twice equals seeding once: a present file is never rewritten. */
  lemma SeedFilesIdempotent(files: map<string, Json>, paths: seq<string>)
    ensures SeedFiles(SeedFiles(files, paths), paths) == SeedFiles(files, paths)
  {
  }

  /** After start-up on an empty data directory, the settings file is `{}`,
      which `get_settings` reports as not found. */
  lemma FreshSettingsNotFound(files: map<string, Json>)
    requires SettingsPath !in files
    ensures GetSettings(SeedFiles(files, InitialFiles)) == Err(SettingsNotFound)
  {
    assert SettingsPath in InitialFiles;
  }

  const UpdatedMessage := "Nurse updated successfully"
  const ResetMessage := "All nurse groups reset to 0"
  const SavedMessage := "Monthly schedule saved successfully"

  /** The backend's data directory. */
  class DataDir {
    /** data/nurses.json, its "nurses" list. */
    var nurses: seq<Nurse>
    /** data/monthly_schedule.json; `None` when the file does not exist. */
    var monthly: Option<ScheduleFile>
    /** The other JSON files, by path (formula schedules, settings). */
    var files: map<string, Json>

    constructor (nurses: seq<Nurse>, monthly: Option<ScheduleFile>, files: map<string, Json>)
      ensures this.nurses == nurses && this.monthly == monthly && this.files == files
    {
      this.nurses := nurses;
      this.monthly := monthly;
      this.files := files;
    }

    /** `PUT /api/nurses/{id}`: update the first record with that id and
        save, or fail with 404 and save nothing. */
    method UpdateNurse(id: int, u: NurseUpdate) returns (r: Result<string>)
      modifies this`nurses
      ensures UpdateInTable(old(nurses), id, u).None? ==> r == Err(NurseNotFound) && nurses == old(nurses)
      ensures UpdateInTable(old(nurses), id, u).Some? ==>
        r == Ok(UpdatedMessage) && nurses == UpdateInTable(old(nurses), id, u).value
    {
      var i := 0;
      while i < |nurses|
        invariant 0 <= i <= |nurses|
        invariant nurses == old(nurses)
        invariant forall j :: 0 <= j < i ==> nurses[j].id != id
      {
        if nurses[i].id == id {
          var nurse := nurses[i].(group := u.group);
          if u.active.Some? {
            nurse := nurse.(active := u.active);
          }
          nurses := nurses[i := nurse];
          return Ok(UpdatedMessage);
        }
        i := i + 1;
      }
      return Err(NurseNotFound);
    }

    /** `POST /api/nurses/reset-groups`: every group becomes 0. */
    method ResetNurseGroups() returns (msg: string)
      modifies this`nurses
      ensures nurses == ResetGroups(old(nurses))
      ensures msg == ResetMessage
    {
      var i := 0;
      while i < |nurses|
        invariant 0 <= i <= |nurses| == |old(nurses)|
        invariant forall j :: 0 <= j < i ==> nurses[j] == old(nurses)[j].(group := 0)
        invariant forall j :: i <= j < |nurses| ==> nurses[j] == old(nurses)[j]
      {
        nurses := nurses[i := nurses[i].(group := 0)];
        i := i + 1;
      }
      msg := ResetMessage;
    }

    /** `POST /api/monthly-schedule`: overwrite the (year, month) entry. */
    method SaveMonthlySchedule(s: MonthlySchedule) returns (msg: string)
      modifies this`monthly
      ensures monthly == Some(Upsert(old(monthly), s))
      ensures GetMonthlySchedule(monthly, s.year, s.month) == Ok(s)
      ensures msg == SavedMessage
    {
      var existing: ScheduleFile;
      if monthly.Some? {
        existing := monthly.value;
      } else {
        existing := map[];
      }
      if s.year !in existing {
        existing := existing[s.year := map[]];
      }
      existing := existing[s.year := existing[s.year][s.month := s]];
      assert existing == Upsert(old(monthly), s);
      monthly := Some(existing);
      msg := SavedMessage;
    }

    /** Start-up: seed each of the two files when it is absent. */
    method InitializeDataFiles()
      modifies this`files
      ensures files == SeedFiles(old(files), InitialFiles)
    {
      var toInit := InitialFiles;
      var i := 0;
      while i < |toInit|
        invariant 0 <= i <= |toInit|
        invariant files == SeedFiles(old(files), toInit[..i])
      {
        var file := toInit[i];
        assert toInit[..i + 1][..i] == toInit[..i];
        if file !in files {
          if file == FormulaPath {
            files := files[file := DefaultFormulas];
          } else {
            files := files[file := JObject(map[])];
          }
        }
        i := i + 1;
      }
      assert toInit[..i] == toInit;
    }
  }
}
