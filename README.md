# KPI Team: a verified model of the HR/KPI dashboard's rules

This project models the rules of a small HR dashboard. Employees record KPI evaluations on a six-level scale: F, UP, PP, GP, CP, EP. Managers maintain employees, departments, KPIs, activities and KPI assignments. Everyone sees a dashboard of averages and rankings. An annual competency assessment weights one level per competency.

The model covers these parts of the system:

- **The data provider** (`Storage`). Nine collections held by a `Store` class.
  - A refresh fills them from the backend or from the seed data.
  - A save replaces the entry with the same id, or appends. A delete removes every entry with the id.
  - When a backend is configured and the remote call fails, the store re-synchronises.
- **The session** (`Auth`). A `Session` class with the current user and the stored session slot.
  - `login` finds the first matching employee, compares code or e-mail after trimming and lower-casing, and keeps the password case-sensitive.
  - `logout` clears both the user and the slot.
- **The level scale and the seed data** (`Types`, `MockData`). The enumerations, the score and colour tables, and the seed collections, with their invariants proved.
- **The pages.** One module per page, each with a class for the page's form state and one method per handler:
  - `KpiRecordPage`
  - `ManageEmployees`, `ManageDepartments`, `ManageKpis`, `ManageActivities` and `ManageAssignments`
  - `Dashboard`
  - `CompetencyAssessment`

  What a save builds from the form is a function. Each handler's contract ties the new page state and the new store state to that function.
- **Role gating** (`App`, `Navigation`, `Sidebar`, `MobileNav`). The protected route, the route table, and the role filter of both menus. The mobile menu's open flag is a class field.

JavaScript's value rules are written out in `JsValues`:

- `||` on strings and on numbers;
- `??`;
- `String(v)`;
- `(v || '').toString()`;
- `trim`;
- ASCII `toLowerCase`;
- `parseInt`.

`SeqUtil` holds the array operations `filter`, `find`, `findIndex`, `map`, `slice` and `reverse`, plus a stable descending sort.

Inputs the code takes from its environment are parameters of the model:

- the outcome of each remote call (`Remote`) and of each `getAllData` fetch (`Fetch`);
- fresh uuids: a `freshId`, or for the competency save a function `uuids` from competency id to id;
- the current time and the current year;
- the answer to `confirm`, as a boolean.

In a few places the code behaves differently from what its own comments and labels suggest. The model follows the code:

- **Note autofill.** The rubric lookup on a level change ignores the KPI. It takes the first level rule with that level, whichever KPI the rule belongs to (`KpiRecordPage.RuleTextIgnoresKpi`).
- **Photo removal.** Removing the photo while editing an employee does not remove it: the emptied field falls back to the stored photo (`ManageEmployees.RemovedPhotoIsKept`).
- **User notes.** Editing a KPI record drops its `userNote`, which the form never carries (`KpiRecordPage.EditDropsUserNote`).
- **Zero weights.** A form weight of 0 is falsy, so it never replaces a stored weight (`ManageKpis.BuildKpi`, `ManageAssignments.BuildAssignment`).
- **Zero cells.** A sheet cell holding the number 0 as an employee code or password becomes `""`, not `"0"` (`Storage.ZeroCellBecomesEmpty`).
- **Stale edits.** An edit whose assignment has meanwhile disappeared skips the duplicate check, and can give an employee the same KPI twice (`ManageAssignments.StaleEditDuplicatesPair`).
- **Level rule ids.** Level rules are loaded as sent, without the id normalisation the other collections get.
- **The competency save guard.** The guard counts the keys of the rating map. A map whose every entry was reset to the empty option passes the guard, and the save then writes nothing (`CompetencyAssessment.BlankSelectionsSaveNothing`).
- **Save errors.** The saver catches every remote failure itself, so the error alerts of the page handlers are unreachable.
- **Competency types.** `Competency`, `CompetencyRecord` and the competency score table are imported from `types.ts`, but that file does not declare them. They are declared in `Types`. The scores are the ones the assessment's level options show (pages/CompetencyAssessment.tsx:235-240): EP 130, CP 115, GP 100, PP 85, UP 60, F 0.
- **Competency seeds.** The seed competencies and competency records are imported from `mockData.ts`, which does not define them. They are parameters of the `Store` constructor, which keeps them with the other seed collections in its `seeds` field.
- **Routing.** `App.AppScreen` takes the route table as a parameter. `App.Routes` is the table as written, and `App.RoutesWithCompetency` is the corrected table with the `/competency` route added (see "## Findings"). `App.LoadedLinksOpen` states what each table does with the menu links.

## Model

| member | source | states |
|---|---|---|
| Types.ParsePeriodType | types.ts:2-6 | a string parses to a period type exactly when it is that type's stored value, and to nothing for any other string |
| Types.PeriodTypeRoundTrip | types.ts:2-6 | each of weekly, monthly and quarterly survives printing and parsing |
| Types.ParseLevel | types.ts:8-15 | a string parses to a level exactly when it is that level's value |
| Types.LevelRoundTrip | types.ts:8-15 | every level survives printing and parsing |
| Types.LevelScore | types.ts:97-104 | the KPI level score is at most 5 |
| Types.LevelScoreStrictlyIncreasing | types.ts:97-104 | scores rise strictly along F < UP < PP < GP < CP < EP, so equal scores mean equal levels |
| Types.LevelOfScore | types.ts:97-104 | a score has a level exactly when it is 0..5, and that level scores it |
| Types.LevelOfScoreInverse | types.ts:97-104 | reading the level back from its score gives the level |
| Types.LevelColor | types.ts:106-113 | every level has a non-empty colour class |
| Types.LevelColorInjective | types.ts:106-113 | two levels share a colour only if they are the same level |
| Types.CompetencyScore | pages/CompetencyAssessment.tsx:235-240 | the competency raw score is at most 130 |
| Types.CompetencyScoreStrictlyIncreasing | pages/CompetencyAssessment.tsx:235-240 | raw competency scores rise strictly with the level |
| Types.WeightedScore | pages/KPIRecord.tsx:47 | the weighted score is non-negative for non-negative inputs, is the score itself at weight 100, and is 0 at weight 0 or score 0 |
| Types.WeightedScoreMonotone | pages/KPIRecord.tsx:47 | a higher score never gives a lower weighted score |
| MockData.SeedIdsUnique | services/mockData.ts:4-95 | ids are unique within the seed departments, employees, KPIs, assignments, activities and records |
| MockData.SeedLevelRuleIdsUnique | services/mockData.ts:98-106 | the seed level rule ids are unique |
| MockData.SeedReferencesResolve | services/mockData.ts:9-94 | every seed employee has a department; every assignment has an employee and a KPI; every activity has a KPI; every record names an active activity of its own KPI |
| MockData.SeedRecordsConsistent | services/mockData.ts:80-95 | each seed record's score is its level's score, its weight is its assignment's weight, and its weighted score is score times weight over 100 |
| MockData.SeedLevelRulesOnePerLevel | services/mockData.ts:98-106 | six seed level rules, one per level, in order F to EP, all for KPI k3 |
| MockData.SeedCounts | services/mockData.ts:4-95 | 2 departments, 2 employees, 3 KPIs, 3 assignments, 3 activities and 2 records; the employee with code 001 and password 123 is a manager |
| MockData.SeedAssignmentPairsUnique | services/mockData.ts:80-90 | no two seed assignments share an (employee, KPI) pair, and every seed activity is active |
| JsValues.StrOr | pages/ManageEmployees.tsx:65-72 | `a \|\| b` on strings: `a` when present and non-empty, `b` otherwise |
| JsValues.IntOr | pages/ManageKPIs.tsx:26 | `a \|\| b` on numbers: `a` when present and non-zero, `b` otherwise |
| JsValues.NatToString | services/storage.ts:70 | `String(n)` of a natural is a non-empty digit string without a leading zero |
| JsValues.NatToStringInjective | services/storage.ts:70 | different naturals print differently |
| JsValues.IntToString | services/storage.ts:70 | `String(n)` is non-empty and starts with a minus exactly for negatives |
| JsValues.IntToStringInjective | services/storage.ts:70 | different integers print differently, so comparing ids by `String()` compares the numbers |
| JsValues.TrimStart | services/storage.ts:77 | the result is a suffix, everything removed is white space, and the result starts with no white space |
| JsValues.TrimEnd | services/storage.ts:77 | the result is a prefix, everything removed is white space, and the result ends with no white space |
| JsValues.Trim | services/storage.ts:77 | the trimmed string neither starts nor ends with white space |
| JsValues.TrimSpec | services/storage.ts:77 | the input is some white space, then the trimmed string, then some white space |
| JsValues.TrimOfClean | services/storage.ts:77 | a string without surrounding white space is its own trim |
| JsValues.TrimIdempotent | services/storage.ts:77 | trimming twice is trimming once |
| JsValues.ToLower | services/storage.ts:77 | lower-casing keeps the length and lower-cases each ASCII letter in place |
| JsValues.ToLowerIdempotent | services/storage.ts:77 | lower-casing twice is lower-casing once |
| JsValues.ToLowerNoUpper | services/storage.ts:77 | a string without capitals is its own lower case |
| JsValues.NormalFormFixpoint | contexts/AuthContext.tsx:51 | a trimmed lower-case string is its own `.trim().toLowerCase()` |
| JsValues.LowerTrimIdempotent | contexts/AuthContext.tsx:28 | normalising the login identifier twice is normalising it once |
| JsValues.ToJsString | services/storage.ts:70 | `String(v)` is the string itself for a string and the numeral for a number |
| JsValues.OrEmpty | services/storage.ts:77-93 | `(v \|\| '').toString()` is empty exactly for falsy values, else `String(v)` |
| JsValues.ParseIntOrZeroNoDigits | pages/ManageKPIs.tsx:70 | input without digits reads as weight 0 |
| JsValues.ParseIntOfIntToString | pages/ManageAssignments.tsx:83 | a weight typed as an integer numeral is read back exactly |
| SeqUtil.Filter | pages/Dashboard.tsx:36 | `filter` keeps exactly the elements satisfying the predicate and never grows |
| SeqUtil.FilterIdempotent | pages/Dashboard.tsx:44-45 | filtering twice by the same predicate is filtering once |
| SeqUtil.FilterCompose | pages/Dashboard.tsx:43-46 | two successive filters are one filter by the conjunction |
| SeqUtil.FilterKeepsDistinct | pages/CompetencyAssessment.tsx:99-101 | a filter keeps keys distinct |
| SeqUtil.FindIndex | services/storage.ts:161 | `findIndex` gives the first index satisfying the predicate, or none when no element does |
| SeqUtil.Find | contexts/AuthContext.tsx:34 | `find` gives an element satisfying the predicate, and none exactly when no element does |
| SeqUtil.FindFirst | contexts/AuthContext.tsx:34 | `find` gives the first satisfying element |
| SeqUtil.Distinct | pages/Dashboard.tsx:81 | `Array.from(new Set(xs))` has no duplicates and the same members |
| SeqUtil.SortDesc | pages/Dashboard.tsx:87 | the sorted list is descending by the key and a permutation of the input |
| SeqUtil.Map | pages/CompetencyAssessment.tsx:99 | `map` keeps the length and applies the function at every index |
| SeqUtil.SortedPrefixIsTop | pages/Dashboard.tsx:302 | the first n of a descending sort are drawn from the input, are sorted, and none ranks below an element left out |
| SeqUtil.Take | pages/KPIRecord.tsx:320 | `slice(0, n)` has length min(|xs|, n) and keeps the prefix |
| SeqUtil.Reverse | pages/KPIRecord.tsx:320 | the reversal has the same length with the elements in opposite order |
| Storage.Upsert | services/storage.ts:160-168 | a saved item with a new id is appended; otherwise the first item with its id is replaced in place and nothing else changes |
| Storage.UpsertThenFind | services/storage.ts:160-168 | after a save, looking its id up finds exactly the saved item |
| Storage.UpsertKeepsIdsUnique | services/storage.ts:160-168 | a save keeps ids unique and adds only the saved id to the set of ids |
| Storage.SameIdSameItem | services/storage.ts:161 | with unique ids, two stored items with one id are the same item |
| Storage.UpsertMembers | services/storage.ts:160-168 | with unique ids, after a save the collection holds the saved item and exactly the other items with a different id |
| Storage.UpsertIdempotent | services/storage.ts:160-168 | saving the same item twice is saving it once |
| Storage.UpsertPresentKeepsLength | services/storage.ts:161-165 | re-saving under an existing id keeps the length |
| Storage.RemoveId | services/storage.ts:186 | a delete keeps exactly the items with a different id |
| Storage.RemoveAbsent | services/storage.ts:186 | deleting an absent id changes nothing |
| Storage.RemoveIdempotent | services/storage.ts:186 | deleting twice is deleting once |
| Storage.RemovePresent | services/storage.ts:186 | with unique ids, deleting a present id removes exactly that item and keeps the others in order |
| Storage.SaveThenDeleteNew | services/storage.ts:160-186 | saving a new item and deleting its id restores the collection |
| Storage.ExistingItem | pages/ManageKPIs.tsx:20 | the edited item is found only for a non-empty editing id that still names an item, and it carries that id |
| Storage.ExistingItemIsReplaced | pages/ManageKPIs.tsx:20-33 | with unique ids, saving under the editing id replaces exactly the edited item in place |
| Storage.Normalize | services/storage.ts:70 | a missing payload collection becomes empty |
| Storage.NormalizeIds | services/storage.ts:70 | normalisation keeps the length and makes each id the `String()` of the payload id, so 7 becomes "7" |
| Storage.NormalizeKeepsFields | services/storage.ts:70 | normalisation changes nothing but the id |
| Storage.IdSettersOnlySetId | services/storage.ts:70 | the id update of each collection leaves every other field alone |
| Storage.CleanRole | services/storage.ts:77-80 | a loaded role is manager or employee, and manager exactly when the trimmed lower-cased cell is "manager" |
| Storage.NormalizeEmployee | services/storage.ts:75-95 | a loaded employee has its id as a string, its role cleaned, e-mail trimmed and lower-cased, code, password and photo trimmed with missing values "", and other fields kept |
| Storage.TrimmedCell | services/storage.ts:89-93 | a coalesced, stringified and trimmed cell is the trim of the coalesced cell and is its own trim |
| Storage.LoweredCell | services/storage.ts:87 | the normalised e-mail is the lower-cased trim of the cell and is unchanged by normalising it again |
| Storage.RoleNamesNormal | services/storage.ts:77-80 | the two role names are already in normal form |
| Storage.NormalizeCleanEmployee | services/storage.ts:75-95 | loading an already clean employee gives it back |
| Storage.ZeroCellBecomesEmpty | services/storage.ts:89-91 | a numeric 0 code or password loads as the empty string |
| Storage.NumericPasswordBecomesDigits | services/storage.ts:91 | a numeric password such as 1234 loads as its digits |
| Storage.NormalizeRecord | services/storage.ts:103-106 | a loaded record has its id as a string and a user note, keeps a non-empty note, and keeps every other field |
| Storage.LoadedGuarantees | services/storage.ts:70-113 | after a load every employee is clean and every record has a note; level rules fall back to the seed only when missing (an empty list is kept); competencies fall back when missing or empty |
| Storage.RefreshOutcomes | services/storage.ts:61-148 | without a backend a refresh shows the seed data; with one, a failed or empty answer changes nothing and an answer is loaded |
| Storage.FinalWriteOutcomes | services/storage.ts:170-178 | without a backend, or after a successful call, the optimistic update is final |
| Storage.FailedWriteOutcomes | services/storage.ts:173-177 | after a failed call the store shows the re-synchronised data, or keeps the optimistic update if that also fails |
| Storage.Store.constructor | services/storage.ts:40-53 | the first render has every collection empty and `loading` set, and keeps the seed collections that a refresh without a backend shows |
| Storage.Store.SetAll | services/storage.ts:130-139 | the collections become the given ones and `loading` is kept |
| Storage.Store.RefreshData | services/storage.ts:61-148 | the collections become the refreshed state and `loading` ends false |
| Storage.Store.Commit | services/storage.ts:170-178 | the state after the remote call, with `loading` set only by the re-synchronisation's own reset |
| Storage.Store.SaveDepartment | services/storage.ts:155-179 | departments become the upsert of the item; the store then re-synchronises only on a failed remote call |
| Storage.Store.DeleteDepartment | services/storage.ts:181-197 | departments lose the id; the store then re-synchronises only on a failed remote call |
| Storage.Store.SaveEmployee | services/storage.ts:155-179 | as SaveDepartment, for employees |
| Storage.Store.DeleteEmployee | services/storage.ts:181-197 | as DeleteDepartment, for employees |
| Storage.Store.SaveKpi | services/storage.ts:155-179 | as SaveDepartment, for KPIs |
| Storage.Store.DeleteKpi | services/storage.ts:181-197 | as DeleteDepartment, for KPIs |
| Storage.Store.SaveActivity | services/storage.ts:155-179 | as SaveDepartment, for activities |
| Storage.Store.DeleteActivity | services/storage.ts:181-197 | as DeleteDepartment, for activities |
| Storage.Store.SaveAssignment | services/storage.ts:155-179 | as SaveDepartment, for assignments |
| Storage.Store.DeleteAssignment | services/storage.ts:181-197 | as DeleteDepartment, for assignments |
| Storage.Store.SaveRecord | services/storage.ts:155-179 | as SaveDepartment, for KPI records |
| Storage.Store.DeleteRecord | services/storage.ts:181-197 | as DeleteDepartment, for KPI records |
| Storage.Store.SaveCompetencyRecord | services/storage.ts:155-179 | as SaveDepartment, for competency records |
| Storage.Mount | services/storage.ts:150-152 | mounting refreshes once: the store's seed collections without a backend, the answer or empty collections with one; `loading` ends false |
| Auth.FindUser | contexts/AuthContext.tsx:34-44 | the found employee matches the normalised identifier and password, and none is found exactly when no employee matches |
| Auth.SessionUser | contexts/AuthContext.tsx:49-52 | the session user is the employee with only its role trimmed and lower-cased |
| Auth.FindUserIsFirstMatch | contexts/AuthContext.tsx:34 | among several matches the first in collection order logs in |
| Auth.LoginIgnoresCaseAndSpace | contexts/AuthContext.tsx:28-29 | surrounding space and case of the identifier, and surrounding space of the password, do not change who logs in |
| Auth.PasswordIsCaseSensitive | contexts/AuthContext.tsx:38-41 | a password that differs from the stored one only in letter case is rejected |
| Auth.SessionUserOfClean | contexts/AuthContext.tsx:49-52 | for a loaded employee the session user is the employee itself |
| Auth.Session.Restore | contexts/AuthContext.tsx:19-24 | the stored user, if any, becomes the current user |
| Auth.Session.Login | contexts/AuthContext.tsx:26-61 | succeeds exactly when some employee matches; then the first match in session form is the user and is stored; on failure nothing changes |
| Auth.Session.Logout | contexts/AuthContext.tsx:63-69 | no user, an empty slot, and not authenticated |
| KpiRecordPage.AssignedKpisSpec | pages/KPIRecord.tsx:35-41 | one entry per assignment of the employee whose KPI exists, in assignment order, with that KPI and that assignment's weight |
| KpiRecordPage.AssignedKpisCons | pages/KPIRecord.tsx:35-41 | the first assignment contributes one entry, with its KPI and weight, exactly when it is the employee's and its KPI exists; otherwise the list is that of the rest |
| KpiRecordPage.ActivityChoices | pages/KPIRecord.tsx:43 | exactly the active activities of the selected KPI |
| KpiRecordPage.CurrentWeight | pages/KPIRecord.tsx:45-46 | the weight of the first assignment of the employee to the KPI, or 0 when there is none |
| KpiRecordPage.RuleText | pages/KPIRecord.tsx:55-56 | the description of the first level rule with the level, or the default text when there is none |
| KpiRecordPage.RuleTextIgnoresKpi | pages/KPIRecord.tsx:55-56 | the rubric text does not depend on the rules' KPIs |
| KpiRecordPage.ActivityName | pages/KPIRecord.tsx:114 | the name of the first active activity of the KPI with the chosen id, and a non-empty name only from such an activity |
| KpiRecordPage.BuildRecord | pages/KPIRecord.tsx:106-122 | the saved record keeps the editing id and the original date when editing, else gets a fresh id and the current time; it carries the form's choices, the current assignment's weight, the weighted score, no user note, and the name of the first matching active activity (a non-empty name only from one) |
| KpiRecordPage.EditDropsUserNote | pages/KPIRecord.tsx:106-124 | saving an edit replaces the record in place, keeps its date and drops its user note |
| KpiRecordPage.PeriodOptions | pages/KPIRecord.tsx:144-158 | 52 options for weekly, 12 for monthly, 4 otherwise (their keys: PeriodOptionsDistinct, QuarterlyOptions) |
| KpiRecordPage.PeriodOptionsDistinct | pages/KPIRecord.tsx:144-158 | the period keys are distinct and are `week-i-year` or `month-i-year` in order |
| KpiRecordPage.QuarterlyOptions | pages/KPIRecord.tsx:155-157 | any other period lists `q1-year` to `q4-year` in order |
| KpiRecordPage.NumberedKeysDistinct | pages/KPIRecord.tsx:148-152 | two numbered keys of one period and year are equal only for the same number |
| KpiRecordPage.VisibleRecords | pages/KPIRecord.tsx:161-163 | a manager sees every record, anyone else exactly their own, nobody anything without a user |
| KpiRecordPage.History | pages/KPIRecord.tsx:320 | the 20 most recent visible records, newest first |
| KpiRecordPage.RecordForm.constructor | pages/KPIRecord.tsx:14-25 | a blank form on the monthly period |
| KpiRecordPage.RecordForm.AutoSelect | pages/KPIRecord.tsx:28-32 | a logged-in employee is selected when the editing id is not truthy; otherwise nothing changes |
| KpiRecordPage.RecordForm.HandleLevelChange | pages/KPIRecord.tsx:50-62 | level and score are set; the note becomes the rubric text exactly when it was empty or autofilled; the blank option clears the level, fills the default text under the same condition and leaves a form that cannot be submitted; nothing else changes |
| KpiRecordPage.RecordForm.HandleNoteInput | pages/KPIRecord.tsx:292 | the typed note is kept and no longer counts as autofilled |
| KpiRecordPage.RecordForm.ResetForm | pages/KPIRecord.tsx:64-78 | a blank form that keeps the period settings and re-selects a logged-in employee |
| KpiRecordPage.RecordForm.HandleEdit | pages/KPIRecord.tsx:80-94 | the form takes every field of the record |
| KpiRecordPage.RecordForm.HandleSubmit | pages/KPIRecord.tsx:96-128 | nothing happens, store and `loading` included, unless employee, KPI, activity and level are chosen; otherwise the built record is saved and the form reset in full |
| KpiRecordPage.RecordForm.HandleDelete | pages/KPIRecord.tsx:130-141 | after confirmation the record is deleted, and the whole form is reset as `resetForm` does if it was editing it; without confirmation nothing changes, store and `loading` included |
| ManageAssignments.BuildAssignment | pages/ManageAssignments.tsx:20-29 | the editing id or a fresh id; each field from the form when truthy, else the edited item, else '', 0 or today; a form weight of 0 falls back |
| ManageAssignments.SaveUntouchedEdit | pages/ManageAssignments.tsx:20-29 | saving an untouched edit form saves the item itself |
| ManageAssignments.Holder | pages/ManageAssignments.tsx:33 | an assignment other than the edited one holding the pair, found exactly when one exists |
| ManageAssignments.NewDuplicateRejected | pages/ManageAssignments.tsx:32-38 | a new assignment for a held pair is refused |
| ManageAssignments.ChangedPairToHeldRejected | pages/ManageAssignments.tsx:32-38 | an edit moving onto a pair another assignment holds is refused |
| ManageAssignments.UncheckedEdits | pages/ManageAssignments.tsx:32 | an edit that keeps its pair, or whose item has gone, is never refused |
| ManageAssignments.StaleEditDuplicatesPair | pages/ManageAssignments.tsx:20-41 | a stale edit is saved unchecked and can duplicate a pair |
| ManageAssignments.AcceptedSaveKeepsPairsUnique | pages/ManageAssignments.tsx:32-41 | an accepted save keeps (employee, KPI) pairs unique |
| ManageAssignments.AssignmentsPage.constructor | pages/ManageAssignments.tsx:10-12 | the modal closed, no editing id and an empty form |
| ManageAssignments.AssignmentsPage.OpenAdd | pages/ManageAssignments.tsx:48 | an open modal with an empty form and no editing id |
| ManageAssignments.AssignmentsPage.OpenEdit | pages/ManageAssignments.tsx:49 | an open modal editing the item, the form holding all of it |
| ManageAssignments.AssignmentsPage.InputWeight | pages/ManageAssignments.tsx:83 | the form weight becomes `parseInt(text) \|\| 0`; nothing else changes |
| ManageAssignments.AssignmentsPage.Cancel | pages/ManageAssignments.tsx:86 | only the modal closes |
| ManageAssignments.AssignmentsPage.HandleSave | pages/ManageAssignments.tsx:15-46 | a refused save changes nothing; an accepted one saves the built assignment and closes on an empty form |
| ManageAssignments.AssignmentsPage.HandleDelete | pages/ManageAssignments.tsx:50-52 | the assignment is deleted only after confirmation |
| ManageDepartments.BuildDepartment | pages/ManageDepartments.tsx:20-28 | the editing id or a fresh id; code, name and manager from the form when non-empty, else the edited item, else '' |
| ManageDepartments.SaveUntouchedEdit | pages/ManageDepartments.tsx:20-28 | saving an untouched edit form saves the department unchanged |
| ManageDepartments.EmployeeCount | pages/ManageDepartments.tsx:43 | the number of employees in the department: 0 exactly when none is, all exactly when all are |
| ManageDepartments.EmployeeCountSplit | pages/ManageDepartments.tsx:43 | head counts add up over a split of the employee list |
| ManageDepartments.DepartmentsPage.constructor | pages/ManageDepartments.tsx:10-12 | the modal closed, no editing id and an empty form |
| ManageDepartments.DepartmentsPage.OpenAdd | pages/ManageDepartments.tsx:37 | an open modal with an empty form |
| ManageDepartments.DepartmentsPage.OpenEdit | pages/ManageDepartments.tsx:38 | an open modal editing the department |
| ManageDepartments.DepartmentsPage.Cancel | pages/ManageDepartments.tsx:70 | only the modal closes |
| ManageDepartments.DepartmentsPage.HandleSave | pages/ManageDepartments.tsx:15-35 | the built department is saved and the modal closes on an empty form |
| ManageDepartments.DepartmentsPage.HandleDelete | pages/ManageDepartments.tsx:39-41 | the department is deleted only after confirmation |
| ManageKpis.TextField | pages/ManageKPIs.tsx:27-30 | the form text when non-empty, else the edited item's, else '' |
| ManageKpis.BuildKpi | pages/ManageKPIs.tsx:20-31 | the editing id or a fresh id; period defaults to monthly; a weight of 0 falls back; text fields coalesce; the rubric comes from the form when it has the key, else from the edited KPI |
| ManageKpis.SaveUntouchedEdit | pages/ManageKPIs.tsx:20-31 | saving an untouched edit form saves the KPI itself, rubric included |
| ManageKpis.SaveUntouchedAdd | pages/ManageKPIs.tsx:40 | an untouched add form creates a monthly, weightless KPI without a rubric |
| ManageKpis.EditKeepsRubric | pages/ManageKPIs.tsx:22-23 | an edit whose form never had the rubric keeps the stored rubric |
| ManageKpis.KpisPage.constructor | pages/ManageKPIs.tsx:10-12 | the modal closed, no editing id and an empty form |
| ManageKpis.KpisPage.OpenAdd | pages/ManageKPIs.tsx:40 | an open modal whose form holds only the monthly period |
| ManageKpis.KpisPage.OpenEdit | pages/ManageKPIs.tsx:41 | an open modal whose form holds the whole KPI |
| ManageKpis.KpisPage.InputWeight | pages/ManageKPIs.tsx:70 | the form weight becomes `parseInt(text) \|\| 0`; nothing else changes |
| ManageKpis.KpisPage.SelectPeriod | pages/ManageKPIs.tsx:71 | the form period becomes the chosen one; nothing else changes |
| ManageKpis.KpisPage.ShownPeriod | pages/ManageKPIs.tsx:71 | the select shows the form's period, or monthly when there is none |
| ManageKpis.KpisPage.Cancel | pages/ManageKPIs.tsx:79 | only the modal closes |
| ManageKpis.KpisPage.HandleSave | pages/ManageKPIs.tsx:15-38 | the built KPI is saved and the modal closes on an empty form |
| ManageKpis.KpisPage.HandleDelete | pages/ManageKPIs.tsx:42-44 | the KPI is deleted only after confirmation |
| ManageActivities.ActiveField | pages/ManageActivities.tsx:25 | `??`: the form's value when present, even false, else the edited item's, else true |
| ManageActivities.BuildActivity | pages/ManageActivities.tsx:20-30 | the editing id or a fresh id; `active` by `??`; text fields from the form, else the edited item, else '' |
| ManageActivities.DeactivateIsSaved | pages/ManageActivities.tsx:25 | unticking an active activity saves it inactive |
| ManageActivities.SaveUntouchedEdit | pages/ManageActivities.tsx:20-30 | saving an untouched edit form saves the activity itself |
| ManageActivities.ActivitiesPage.constructor | pages/ManageActivities.tsx:10-12 | the modal closed, no editing id and an empty form |
| ManageActivities.ActivitiesPage.OpenAdd | pages/ManageActivities.tsx:39 | an open modal whose new activity starts active |
| ManageActivities.ActivitiesPage.OpenEdit | pages/ManageActivities.tsx:40 | an open modal whose form holds the activity |
| ManageActivities.ActivitiesPage.ShownActive | pages/ManageActivities.tsx:75 | the checkbox shows the form's value, ticked when there is none |
| ManageActivities.ActivitiesPage.ToggleActive | pages/ManageActivities.tsx:75 | the form stores the new state, which the checkbox then shows |
| ManageActivities.ActivitiesPage.Cancel | pages/ManageActivities.tsx:80 | only the modal closes |
| ManageActivities.ActivitiesPage.HandleSave | pages/ManageActivities.tsx:15-37 | the built activity is saved and the modal closes on an empty form |
| ManageActivities.ActivitiesPage.HandleDelete | pages/ManageActivities.tsx:41-43 | the activity is deleted only after confirmation |
| ManageEmployees.EditDraft | pages/ManageEmployees.tsx:174-187 | the edit form shows the employee, '' for a missing photo or password, and the employee role for an empty role |
| ManageEmployees.BuildEmployee | pages/ManageEmployees.tsx:61-73 | the editing id or a fresh id; every field from the form when non-empty, else the edited employee, else '', the employee role or password 123; password and photo always present |
| ManageEmployees.RemovedPhotoIsKept | pages/ManageEmployees.tsx:72 | an emptied photo field on an edit keeps the stored photo |
| ManageEmployees.SaveUntouchedEdit | pages/ManageEmployees.tsx:61-73 | saving an untouched edit form saves the employee with only the missing defaults filled in |
| ManageEmployees.SaveUntouchedAdd | pages/ManageEmployees.tsx:168-172 | an untouched add form creates an employee with the employee role and password 123 |
| ManageEmployees.UploadIsBase64 | pages/ManageEmployees.tsx:195 | a data URL counts as an uploaded image and a web link does not |
| ManageEmployees.EmployeesPage.constructor | pages/ManageEmployees.tsx:26-37 | the modal closed and the initial form |
| ManageEmployees.EmployeesPage.OpenAdd | pages/ManageEmployees.tsx:168-172 | an open modal on the initial form |
| ManageEmployees.EmployeesPage.OpenEdit | pages/ManageEmployees.tsx:174-187 | an open modal editing the employee, showing its edit form |
| ManageEmployees.EmployeesPage.RemovePhoto | pages/ManageEmployees.tsx:267 | the photo field is emptied; nothing else changes |
| ManageEmployees.EmployeesPage.ShownPhotoLink | pages/ManageEmployees.tsx:331 | the link input is empty for an uploaded image and shows the link otherwise |
| ManageEmployees.EmployeesPage.InputPhotoLink | pages/ManageEmployees.tsx:332 | typing replaces the photo only when it is not an uploaded image |
| ManageEmployees.EmployeesPage.CloseModal | pages/ManageEmployees.tsx:42-48 | closing resets the form and the editing id |
| ManageEmployees.EmployeesPage.HandleSave | pages/ManageEmployees.tsx:57-82 | the built employee is saved, the modal closes and the form is reset |
| ManageEmployees.EmployeesPage.HandleDelete | pages/ManageEmployees.tsx:189-193 | the employee is deleted only after confirmation |
| Dashboard.EmployeeOptions | pages/Dashboard.tsx:34-37 | every employee, or exactly the selected department's |
| Dashboard.FilteredEmployees | pages/Dashboard.tsx:39-47 | nobody without a user; an employee sees only their own entry; anyone else sees the selected department and employee |
| Dashboard.FilteredEmployeesInOrder | pages/Dashboard.tsx:39-47 | in every case the list keeps the original order |
| Dashboard.DeptChangeShowsOptions | pages/Dashboard.tsx:25-47 | after a department change a manager's view is exactly the department's options |
| Dashboard.VisibleRecords | pages/Dashboard.tsx:50 | exactly the records of employees in view |
| Dashboard.VisibleAssignments | pages/Dashboard.tsx:51 | exactly the assignments of employees in view |
| Dashboard.EmployeeSeesOwnRecords | pages/Dashboard.tsx:41-50 | an employee on file sees exactly their own records |
| Dashboard.MeanScore | pages/Dashboard.tsx:63 | the mean score, 0 without records |
| Dashboard.MeanScoreBounds | pages/Dashboard.tsx:63 | records on the level scale average between 0 and 5 |
| Dashboard.MeanOfEqualScores | pages/Dashboard.tsx:63 | equal scores average to that score |
| Dashboard.CompletionRate | pages/Dashboard.tsx:65 | records over assignments as a percentage rounded half up, 0 without assignments, not capped |
| Dashboard.CompletionRateExamples | pages/Dashboard.tsx:65 | one record per assignment is 100%, twice as many is 200% |
| Dashboard.CompletionRateMonotone | pages/Dashboard.tsx:65 | more records never lower the rate |
| Dashboard.CurrentLevel | pages/Dashboard.tsx:67-72 | the level whose score is nearest the average, halves rounding up |
| Dashboard.CurrentLevelMonotone | pages/Dashboard.tsx:67-72 | a higher average never gives a lower level, and a level's own score gives that level |
| Dashboard.StatusOf | pages/Dashboard.tsx:54-60 | the badge is one step below the level of the same score, the two lowest levels sharing a badge |
| Dashboard.StatusMonotone | pages/Dashboard.tsx:54-60 | a higher score never gets a lower badge, and each badge has its own label |
| Dashboard.KpiStatOf | pages/Dashboard.tsx:82-86 | a KPI's count and mean of its visible records, the percentage as the mean times 20; the code and name of the first KPI with that id, a blank name shown as Unknown; Unknown and `''` for a missing KPI |
| Dashboard.KpiPerformance | pages/Dashboard.tsx:80-88 | one entry per distinct KPI of the visible assignments, best average first |
| Dashboard.KpiPerformanceIsPermutation | pages/Dashboard.tsx:80-88 | the ranking reorders the per-KPI entries |
| Dashboard.StatsDistinct | pages/Dashboard.tsx:81-86 | entries built from distinct ids are distinct |
| Dashboard.KpiPerformanceDistinct | pages/Dashboard.tsx:80-88 | no KPI appears twice in the ranking |
| Dashboard.StatsMembers | pages/Dashboard.tsx:80-88 | the per-KPI entries are exactly the entries of the listed KPI ids |
| Dashboard.TeamRowOf | pages/Dashboard.tsx:278-280 | an employee's row carries the mean of their records and its badge |
| Dashboard.TeamRows | pages/Dashboard.tsx:277-301 | one row per employee in view, in order |
| Dashboard.TeamListAsWritten | pages/Dashboard.tsx:277-302 | as written: the first six employees in view, in filter order |
| Dashboard.TeamListAsWrittenIsUnranked | pages/Dashboard.tsx:302 | as written the list is not sorted by score |
| Dashboard.TeamList | pages/Dashboard.tsx:277-302 | corrected: the six best rows, sorted by score and drawn from the rows in view |
| Dashboard.Filters.constructor | pages/Dashboard.tsx:20-23 | all departments, and the logged-in user or all as the employee |
| Dashboard.Filters.HandleDeptChange | pages/Dashboard.tsx:25-28 | a new department resets the employee choice |
| Dashboard.Filters.HandleEmpChange | pages/Dashboard.tsx:30-32 | only the employee choice changes |
| CompetencyAssessment.EndYear | pages/CompetencyAssessment.tsx:23 | the last offered year is the larger of next year and 2030 |
| CompetencyAssessment.AvailableYears | pages/CompetencyAssessment.tsx:20-29 | the consecutive years from 2026 to the end year, including 2030 and next year |
| CompetencyAssessment.PeriodOfInjective | pages/CompetencyAssessment.tsx:37 | different years give different period strings |
| CompetencyAssessment.DefaultYear | pages/CompetencyAssessment.tsx:33-34 | the current year, never before 2026, always among the offered years |
| CompetencyAssessment.LevelsOfKeys | pages/CompetencyAssessment.tsx:50-53 | the loaded keys are exactly the competencies with a record, each with a level |
| CompetencyAssessment.LevelsOfLastWins | pages/CompetencyAssessment.tsx:51-53 | a record's level loads when no later record of its competency says otherwise |
| CompetencyAssessment.RecordMapKeys | pages/CompetencyAssessment.tsx:45-58 | for a chosen employee and period, the keys are the competencies with a record for both |
| CompetencyAssessment.LoadShowsSavedLevel | pages/CompetencyAssessment.tsx:45-58 | a competency whose records all agree loads that level |
| CompetencyAssessment.TotalScoreBounds | pages/CompetencyAssessment.tsx:69-84 | the total lies between 0 and 130% of the total weight |
| CompetencyAssessment.StandardRatingScoresTotalWeight | pages/CompetencyAssessment.tsx:69-84 | rating everything GP makes the total equal the total weight |
| CompetencyAssessment.UnratedScoresZero | pages/CompetencyAssessment.tsx:69-84 | nothing rated scores 0 |
| CompetencyAssessment.RecordsToSave | pages/CompetencyAssessment.tsx:99-123 | one record per rated competency, in order, with the employee, period, level, raw and weighted score, weight, and the id of the record it replaces or a fresh one |
| CompetencyAssessment.BlankSelectionsSaveNothing | pages/CompetencyAssessment.tsx:92-101 | a map of reset selections passes the guard and saves nothing |
| CompetencyAssessment.UpsertAllExisting | pages/CompetencyAssessment.tsx:106-122 | saving records that reuse stored ids keeps the size, the ids and their uniqueness |
| CompetencyAssessment.ReassessKeepsRecordCount | pages/CompetencyAssessment.tsx:106-122 | re-assessing competencies that all have a stored record adds no records |
| CompetencyAssessment.UpsertAllMembers | pages/CompetencyAssessment.tsx:122 | successive saves keep ids unique and leave the saved records plus the stored ones not overwritten |
| CompetencyAssessment.StoredRecordIdReused | pages/CompetencyAssessment.tsx:106-111 | a stored record of the key is found and its id reused |
| CompetencyAssessment.SaveIdsDiffer | pages/CompetencyAssessment.tsx:106-111 | the save gives different competencies different ids |
| CompetencyAssessment.SavedRecordsDistinct | pages/CompetencyAssessment.tsx:99-123 | one save writes distinct competencies under distinct ids |
| CompetencyAssessment.SavedReplacesStored | pages/CompetencyAssessment.tsx:106-122 | a stored record of a saved key is overwritten by the save |
| CompetencyAssessment.SaveKeepsOneRecordPerKey | pages/CompetencyAssessment.tsx:99-125 | after a save there is still at most one record per employee, period and competency, and ids stay unique |
| CompetencyAssessment.SavedIsOnlyOfKey | pages/CompetencyAssessment.tsx:99-125 | after a save the saved record is the only one of its key |
| CompetencyAssessment.SaveThenReloadShowsLevel | pages/CompetencyAssessment.tsx:45-125 | after a save, reloading the employee and period shows each chosen level |
| CompetencyAssessment.SaveEach | pages/CompetencyAssessment.tsx:99-123 | the optimistic updates of all saves in order, `loading` unchanged |
| CompetencyAssessment.SaveOne | pages/CompetencyAssessment.tsx:122 | the optimistic half of one record save upserts the record and leaves the other collections and `loading` alone |
| CompetencyAssessment.AssessmentPage.constructor | pages/CompetencyAssessment.tsx:14-16 | no employee, no period and no ratings |
| CompetencyAssessment.AssessmentPage.InitSelection | pages/CompetencyAssessment.tsx:32-42 | the default period, and an employee assesses themself |
| CompetencyAssessment.AssessmentPage.SelectEmployee | pages/CompetencyAssessment.tsx:157 | only the employee changes |
| CompetencyAssessment.AssessmentPage.SelectPeriod | pages/CompetencyAssessment.tsx:176 | only the period changes |
| CompetencyAssessment.AssessmentPage.SyncRecords | pages/CompetencyAssessment.tsx:45-58 | the ratings become the loaded map of the selection |
| CompetencyAssessment.AssessmentPage.HandleScoreChange | pages/CompetencyAssessment.tsx:62-67 | one competency's rating is set and every other stays |
| CompetencyAssessment.AssessmentPage.CalculateTotal | pages/CompetencyAssessment.tsx:69-84 | the weighted score of the rated competencies and the weight of them all |
| CompetencyAssessment.AssessmentPage.HandleSaveAll | pages/CompetencyAssessment.tsx:86-133 | nothing past a failed guard; otherwise every rated competency's record is saved and the store re-synchronises if any call failed |
| Navigation.VisibleItems | components/Sidebar.tsx:32 | exactly the items whose roles include the user's role, none without a user |
| Navigation.VisibleItemsInOrder | components/Sidebar.tsx:32 | the visible items keep the declared order |
| Navigation.VisiblePrefix | components/Sidebar.tsx:32 | when exactly the first n items are allowed, those show |
| Navigation.ActiveClass | components/MobileNav.tsx:51 | a link is highlighted exactly on its own path |
| Sidebar.NavItemsOfManager | components/Sidebar.tsx:21-32 | a manager sees all seven items |
| Sidebar.NavItemsOfEmployee | components/Sidebar.tsx:21-32 | an employee sees only the dashboard and the KPI record page |
| Sidebar.NavItemsOfOtherRoles | components/Sidebar.tsx:32 | no user, or another role, sees nothing |
| Sidebar.IsActive | components/Sidebar.tsx:14 | the highlight class exactly on the current path |
| Sidebar.HandleLogout | components/Sidebar.tsx:16-19 | the session ends and the browser goes to /login |
| MobileNav.NavItemsOfManager | components/MobileNav.tsx:19-30 | a manager sees all eight items |
| MobileNav.NavItemsOfEmployee | components/MobileNav.tsx:19-30 | an employee sees the dashboard, the KPI record page and the competency assessment |
| MobileNav.NavItemsOfOtherRoles | components/MobileNav.tsx:30 | no user, or another role, sees nothing |
| MobileNav.LinkClass | components/MobileNav.tsx:51 | the highlight exactly on the current path |
| MobileNav.Menu.constructor | components/MobileNav.tsx:9 | the menu starts closed |
| MobileNav.Menu.ShownItems | components/MobileNav.tsx:44-46 | the visible items while open, none while closed |
| MobileNav.Menu.Toggle | components/MobileNav.tsx:39 | the button flips the menu |
| MobileNav.Menu.FollowLink | components/MobileNav.tsx:47-50 | a link closes the menu and goes to its path |
| MobileNav.Menu.HandleLogout | components/MobileNav.tsx:14-17 | the session ends and the browser goes to /login |
| App.ProtectedRoute | App.tsx:24-36 | the page renders exactly for a user whose role is admitted; no user goes to /login, a refused role goes home |
| App.RoutePathsDistinct | App.tsx:63-85 | no two routes share a path |
| App.ResolveRoute | App.tsx:63-85 | a routed path shows that route's element |
| App.OpensAt | App.tsx:63-85 | an admitted user sees the route's page |
| App.OnlyLoginIsOpen | App.tsx:64-83 | only /login is unguarded; without a user every routed path goes to /login |
| App.ManagementPagesAreManagerOnly | App.tsx:69-83 | the five management pages render for a manager only and send others home |
| App.MemberPagesAreOpen | App.tsx:66-67 | the dashboard and the KPI record page render for every signed-in user |
| App.UnknownPathsGoHome | App.tsx:85 | a path without a route goes home |
| App.CompetencyLinkGoesHome | App.tsx:63-85 | as written, the mobile menu's competency link leads home |
| App.SidebarLinksOpen | components/Sidebar.tsx:21-32 | every sidebar link opens its page for the user who sees it |
| App.MenuLinksOpen | components/MobileNav.tsx:19-30 | corrected: with the competency route every mobile link opens a page |
| App.AppScreen | App.tsx:50-86 | the spinner exactly while loading; the dev banner exactly in development mode with a user; otherwise the view the given route table resolves (`Routes` as written, `RoutesWithCompetency` corrected) |
| App.LoadedLinksOpen | App.tsx:59-86 | once loaded, as written: every sidebar link and every mobile link except the competency one opens a page for the user who sees it, and the competency link goes home; corrected (competency route added): every link of either menu opens a page |
| App.MenuLinksOpenAsWritten | components/MobileNav.tsx:19-30 | as written, every mobile link other than `/competency` opens a page for the user who sees it |
| App.CompetencyPathGoesHome | App.tsx:63-85 | as written, `/competency` has no route and sends every user home |
| App.SidebarItemsRouted | components/Sidebar.tsx:21-29 | each sidebar link has a route with its path whose role restriction is absent or the link's own role list (App.tsx:64-83) |
| App.MenuItemsRouted | components/MobileNav.tsx:19-28 | with the competency route added, each mobile menu link has a route with its path whose role restriction is absent or the link's own role list |

## Left out

- services/api.ts is not part of this model. The transport is an abstract outcome per call (`Remote`, `Fetch`).
- Alerts, console logging, `window.scrollTo` and the spinner delay have no effect on the state, so they are left out. `confirm` is a boolean input.
- uuids, the clock and the current year are inputs. The competency save's ids are a function of the competency id, whose freshness is a precondition (`FreshIds`).
- `JSON.stringify`/`JSON.parse` and `localStorage` are left out. The session slot is an `Option<Employee>` field that holds the value itself.
- Floating point is not modelled: averages and weighted scores are exact `real`s.
- KpiRecordPage.BuildRecord: the weighted score is the exact quotient, not `parseFloat(toFixed(2))`, because floating point is not modelled.
- `toFixed` display formatting is left out for the same reason.
- The image crop, zoom and canvas code of the employee page (pages/ManageEmployees.tsx:85-164) is DOM and floating-point work, so it is left out.
- Promise concurrency is modelled in one fixed order. The competency save's optimistic updates happen in order, and one re-synchronisation follows if any call failed. Interleavings of concurrent saves and refreshes are not modelled.
- `isSaving` flags only disable buttons, so they are left out.
- The rendering is left out: JSX, CSS, GenericTable, StatCard, Layout, the login page, `isIndividualView`, `currentEmployee`, `selectedEmployee` and the competency level descriptions.
- Text inputs that only copy their value into one form field have no method of their own. Their effect is the field update of the form datatype.
- Router matching is reduced to exact path equality.
- JsValues.ToLower: lower-cases ASCII letters only, because Unicode case mapping is not modelled.
- JsValues.ParseInt: reads decimal digits only. A `0x` prefix is not modelled.
- Payload rows that are `null` are not modelled.
- Weights are integers.
- KpiRecordPage.RecordForm.HandleLevelChange: for the blank option the score is `LEVEL_SCORES['']`, which is undefined; the model writes 0. No record can carry it, because a blank level cannot be submitted.
- SeqUtil.SortDesc: the JavaScript sort is stable, and so is this insertion sort, but the contract does not state that ties keep their input order; it states sortedness and permutation only.

## Findings

| source | as written | input that shows it | evidently intended | confidence | as-written member | corrected member |
|---|---|---|---|---|---|---|
| pages/Dashboard.tsx:277-302 | the team list sorts the rendered rows by `b.score - a.score`, but a rendered row has no `score`; every comparison is NaN, and the list keeps filter order | two employees in view, the first without records and the second with one record of score 5: the first is listed above the second | the six employees with the best mean score, best first | not executed | Dashboard.TeamListAsWrittenIsUnranked | Dashboard.TeamList |
| App.tsx:63-85 | the route table has no `/competency` route, although the mobile menu links it for every signed-in user (components/MobileNav.tsx:22) | a signed-in employee follows the competency link and is sent to `/` | the link opens the competency assessment page | not executed | App.CompetencyLinkGoesHome | App.MenuLinksOpen |
