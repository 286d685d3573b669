# NurseDuty record stores, modelled in Dafny

NurseDuty plans monthly nursing shifts. This project models the record-keeping
part of the NurseDuty repository, in four modules:

- `Backend` (`backend.dfy`) models the FastAPI service in `nurseduty_backend/main.py`.
  It covers the staff table with its update-by-id and group-reset handlers, and the
  year → month → schedule file with its upsert and its lookup. It also covers the
  settings lookup and the start-up seeding of the formula and settings files.
  The data directory is the class `Backend.DataDir`:
  - `nurses` is the `"nurses"` list of `data/nurses.json`;
  - `monthly` is `data/monthly_schedule.json`, with `None` for a missing file;
  - `files` maps the path of each other JSON file to its decoded contents.

  An `HTTPException` becomes `Err(HttpError(status, detail))`.
  The read-only handlers `get_monthly_schedule` and `get_settings`, and the file
  reader `load_json` that `get_settings` relies on, are pure functions of the file
  contents. `get_monthly_schedule` opens its file itself, so a missing file there
  is a 404 of its own rather than `load_json`'s `[]`.
- `Staff` (`staff.dfy`) models the Vuex staff module, `nurseduty_frontend/src/store/modules/staff.js`.
  It covers the built-in list of 39 nurses, the mutations, the actions and the
  `memberNurses` getter. The class `Staff.StaffStore` holds `state.nurses` and the
  decoded value stored in browser storage under `"nurses"`.
- `Settings` (`settings.dfy`) models the Vuex settings module, `nurseduty_frontend/src/store/modules/settings.js`.
  It covers the two group counts, their setters, and the `updateSettings` and
  `loadSettings` actions. The class `Settings.SettingsStore` holds both counts and the
  decoded value stored under `"settings"`.
- `Wrappers` (`wrappers.dfy`) holds the shared `Option` type.

Each method that changes state states its whole new state. It does so in terms of a
pure function, such as `UpdateInTable`, `ResetGroups`, `Upsert`, `SeedFiles`,
`WithGroup` or `LoadedCounts`. The lemmas prove the properties promised about those
functions: which records change, round trips, idempotence, and the order the filter keeps.
Each method's `modifies` clause names the fields it may change. That also proves that
the other fields, such as the other setting or the other files, are unchanged.

The Python code keys the schedule file by `str(year)` and `str(month)`. The model
keys it by the integers themselves. That is equivalent, because `str` is injective on ints.

## Model

| member | source | states |
|---|---|---|
| `Backend.Apply` | nurseduty_backend/main.py:89-92 | `group` is always set, because the field is a required int. `active` is set only when the update supplies one and is kept otherwise. id, name and role are unchanged. |
| `Backend.FindById` | nurseduty_backend/main.py:87-88 | Returns the index of the first record with the id, or `None` exactly when no record has it. |
| `Backend.UpdateInTable` | nurseduty_backend/main.py:86-95 | Returns `None` exactly when no record has the id. Otherwise only the first matching record changes, the update is applied to it, and the length is kept. |
| `Backend.UpdateInTableIdempotent` | nurseduty_backend/main.py:87-94 | Repeating a successful update gives the same table. |
| `Backend.DataDir.UpdateNurse` | nurseduty_backend/main.py:84-95 | On a match, the table's new state is the updated table and the result is the success message. Otherwise the result is a 404 "Nurse not found" and the table is unchanged. Only `nurses` may change. |
| `Backend.ResetGroups` | nurseduty_backend/main.py:100-101 | Same length; each record equals the old one with `group` set to 0. |
| `Backend.ResetGroupsAllZero` | nurseduty_backend/main.py:100-101 | After the reset every group is 0, and id, name, role and active are unchanged at every position. |
| `Backend.ResetGroupsIdempotent` | nurseduty_backend/main.py:98-103 | Resetting twice equals resetting once. |
| `Backend.DataDir.ResetNurseGroups` | nurseduty_backend/main.py:97-103 | The table becomes `ResetGroups` of the old table and the reset message is returned. Only `nurses` may change. |
| `Backend.GetMonthlySchedule` | nurseduty_backend/main.py:164-180 | A missing file gives 404 "No monthly schedules found". A file lacking the year or the month gives 404 "Schedule for specified month not found". Otherwise the result is the stored schedule. |
| `Backend.Upsert` | nurseduty_backend/main.py:145-156 | A missing file starts as `{}`. The year keys grow by the saved year, and that year's month keys grow by the saved month. The (year, month) entry becomes the saved schedule. Every other entry, including other months of the same year, is unchanged. |
| `Backend.SaveThenGet` | nurseduty_backend/main.py:153-178 | Reading back the month just saved returns it. |
| `Backend.SaveKeepsOtherMonths` | nurseduty_backend/main.py:146-156 | After a save, looking up any other (year, month) gives what it gave before. The one exception is a store that did not exist: it now answers "month not found". |
| `Backend.UpsertIdempotent` | nurseduty_backend/main.py:152-156 | Saving the same schedule twice equals saving it once. |
| `Backend.DataDir.SaveMonthlySchedule` | nurseduty_backend/main.py:138-162 | The file becomes `Upsert` of the old one, the saved month reads back, and the success message is returned. Only `monthly` may change. |
| `Backend.LoadJson` | nurseduty_backend/main.py:67-73 | A missing file reads as `[]`; a present one as its contents. |
| `Backend.GetSettings` | nurseduty_backend/main.py:130-135 | Returns the stored settings exactly when the file exists and its contents are truthy in Python's sense (`Backend.Truthy`: a non-empty object, list or string, a non-zero int, `true`). Otherwise the error is 404 "Settings not found", and a missing file always gives it. |
| `Backend.DefaultContent` | nurseduty_backend/main.py:192-200 | The seeded content is truthy in Python's sense exactly for the formula file (a list of four formula entries); the settings file is seeded with the falsy `{}`. |
| `Backend.SeedFiles` | nurseduty_backend/main.py:190-200 | Each listed path exists afterwards. It keeps its contents if it was present, and gets its default only if it was absent. Unlisted paths are unchanged. |
| `Backend.SeedFilesIdempotent` | nurseduty_backend/main.py:190-191 | Seeding twice equals seeding once: a present file is never rewritten. |
| `Backend.FreshSettingsNotFound` | nurseduty_backend/main.py:199-200 | On a data directory without a settings file, start-up seeds `{}`, so `get_settings` then answers 404. |
| `Backend.DataDir.InitializeDataFiles` | nurseduty_backend/main.py:184-200 | The files become `SeedFiles` of the old files over the two seeded paths, in order. Only `files` may change. |
| `Staff.InitialNursesShape` | nurseduty_frontend/src/store/modules/staff.js:1-41 | The built-in list has 39 entries, all with group 0. |
| `Staff.InitialRoles` | nurseduty_frontend/src/store/modules/staff.js:1-41 | The built-in list is 3 leaders, then 28 members, then 8 POR nurses. |
| `Staff.InitialMembers` | nurseduty_frontend/src/store/modules/staff.js:1-41 | `memberNurses` of the built-in list is exactly its 28 member entries, in order. |
| `Staff.FindByName` | nurseduty_frontend/src/store/modules/staff.js:53 | Returns the index of the first nurse with the name, or `None` exactly when no nurse has it. It is the same first-match search as `Backend.FindById`, keyed by name instead of id, over the front end's record type. |
| `Staff.StaffStore.constructor` | nurseduty_frontend/src/store/modules/staff.js:45-47 | The module starts with an empty nurse list; the stored copy is whatever browser storage already holds. |
| `Staff.WithGroup` | nurseduty_frontend/src/store/modules/staff.js:52-57 | Same length. A name not in the list changes nothing. Otherwise only the first nurse with the name changes, and only in its `group`. |
| `Staff.MemberNurses` | nurseduty_frontend/src/store/modules/staff.js:79 | Every returned nurse is in the input and has role `member`; the result is no longer than the input. |
| `Staff.MemberNursesCounts` | nurseduty_frontend/src/store/modules/staff.js:79 | Each member nurse occurs in the result as often as in the input, and every other nurse occurs 0 times. |
| `Staff.MemberNursesInOrder` | nurseduty_frontend/src/store/modules/staff.js:79 | The filtered list is a subsequence of the input, so the original order is kept. |
| `Staff.MemberNursesAppend` | nurseduty_frontend/src/store/modules/staff.js:79 | Filtering a concatenation gives the concatenation of the filtered parts. |
| `Staff.MemberNursesOfUniform` | nurseduty_frontend/src/store/modules/staff.js:79 | A list of members only is kept whole; a list with no member gives `[]`. |
| `Staff.MemberNursesOfBlocks` | nurseduty_frontend/src/store/modules/staff.js:79 | A list of non-members, then members, then non-members filters to its middle block. |
| `Staff.StaffStore.SetNurses` | nurseduty_frontend/src/store/modules/staff.js:49-51 | The list becomes the given one. Only the in-memory list may change. |
| `Staff.StaffStore.UpdateNurseGroup` | nurseduty_frontend/src/store/modules/staff.js:52-57 | The list becomes `WithGroup` of the old list. The stored copy is untouched. |
| `Staff.StaffStore.SaveNurses` | nurseduty_frontend/src/store/modules/staff.js:69-71 | The stored copy becomes the in-memory list. |
| `Staff.StaffStore.InitializeNurses` | nurseduty_frontend/src/store/modules/staff.js:60-68 | A non-empty stored list becomes the state, and storage is unchanged. Otherwise the built-in list becomes the state and is stored. Either way the list is non-empty and equals the stored copy. |
| `Staff.StaffStore.UpdateNurseGroupAndSave` | nurseduty_frontend/src/store/modules/staff.js:72-75 | The list becomes `WithGroup` of the old list, and the stored copy then equals it. |
| `Settings.SettingsStore.constructor` | nurseduty_frontend/src/store/modules/settings.js:4-7 | Both counts start at 1. |
| `Settings.SettingsStore.SetRegularGroupCount` | nurseduty_frontend/src/store/modules/settings.js:9-11 | Sets the regular count; nothing else may change. |
| `Settings.SettingsStore.SetPorGroupCount` | nurseduty_frontend/src/store/modules/settings.js:12-14 | Sets the POR count; nothing else may change. |
| `Settings.SettingsStore.UpdateSettings` | nurseduty_frontend/src/store/modules/settings.js:17-21 | Both counts become the supplied values, and both values are stored. |
| `Settings.OrOne` | nurseduty_frontend/src/store/modules/settings.js:25-26 | A missing or zero count reads as 1; any other count as itself; the result is never 0. |
| `Settings.LoadedCounts` | nurseduty_frontend/src/store/modules/settings.js:22-27 | With nothing stored, both counts are kept. Otherwise each count becomes `OrOne` of its stored value, so neither is 0. |
| `Settings.SettingsStore.LoadSettings` | nurseduty_frontend/src/store/modules/settings.js:22-27 | The counts become `LoadedCounts` of the stored value. With nothing stored they are unchanged, and storage is never written. |
| `Settings.LoadAfterUpdate` | nurseduty_frontend/src/store/modules/settings.js:17-27 | Loading what `updateSettings(r, p)` stored gives `(r, p)` back, with 0 read as 1. When both are non-zero it gives exactly `(r, p)`. |
| `Settings.LoadIdempotent` | nurseduty_frontend/src/store/modules/settings.js:22-27 | Loading twice equals loading once. |
| `Settings.UpdateThenLoad` | nurseduty_frontend/src/store/modules/settings.js:17-27 | Calling `updateSettings(r, p)` and then `loadSettings` on a store stores `(r, p)` and leaves the counts at `r` and `p`, each turned into 1 if it was 0. |

## Left out

- The shift rotation and monthly schedule generation: the views that implement it are imported by `nurseduty_frontend/src/router/index.js` but are not part of this model.
- File and browser-storage I/O, JSON encoding and decoding, directory creation, FastAPI routing, CORS, logging and server start-up. Each file or storage key is a field holding its decoded value, and decoding is taken to give back what was encoded.
- `load_nurses` on a missing or malformed `data/nurses.json` raises and the service answers 500. The model assumes the file exists and holds a `"nurses"` list, and that every record carries an int `id`: a record without one makes `nurse['id']` raise `KeyError`, and the service answers 500.
- Pydantic validation of request bodies. A body is assumed to have the declared shape, and the default of 0 for a missing `vacationDays`/`accumulatedLeave` is not modelled.
- `save_settings`, `save_all_formula_schedules`, `get_all_formula_schedules`, `get_nurses`: these pass a body or a file through unchanged and have no logic.
- `updatePORGroupCount` in `settings.js`: it commits a mutation the module does not define and reads a field the module lacks, so it has no defined behaviour.
- `schedule.js`, `store/index.js`, `router/index.js`, `vue.config.js`: field assignments, storage pass-through and wiring only.
- The `allNurses` getter and the settings getters: plain projections of a field.
- Staff.StaffStore.InitializeNurses: in `staff.js`, the in-memory list and the module constant `initialNurses` are the same array. A later `updateNurseGroup` mutation therefore also changes the constant. The model copies values, so it does not capture that aliasing.
- Settings.OrOne: JavaScript's `|| 1` also replaces `NaN`, `""` and other falsy values. Counts are ints here, so only a missing value and 0 are modelled.
- Backend.Truthy and Backend.Json: JSON floats are not modelled.
