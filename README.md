# Diffusion Parameter Results Viewer: selection and aggregation state

The viewer (`src/main/python/main.py`) loads per-patient diffusion-parameter
data sets, lets the user tick anatomical regions (twelve check boxes per
patient tab) and shows a combined summary over the patients whose
"Combine Data" button is pressed. This project models the state behind
that window and proves what each user action does to it:

- `patientDataSets`: patient identifier to an opaque data-set handle;
- `patientRegions`: identifier to the ascending list of checked region positions;
- `combinedPatients`: the set of identifiers whose "Combine Data" button is pressed;
- the combined snapshot: `patientRegions` restricted to `combinedPatients`,
  recomputed after every successful region selection, removal and toggle.

It also models two small computations of the same file: the bounding-box
grid built when a table selection is copied, and the tab font-size formula.

Layout:

- `optional.dfy` (module `Optional`): the `Option` wrapper.
- `regions.dfy` (module `Regions`): the check-box comprehension and the
  uniqueness of the ascending list it builds.
- `engine.dfy` (module `Engine`): the state as a value, one transition
  function per user action with a `Status` for the error paths, the combined
  snapshot, the invariant over every reachable state, and worked sequences.
- `app.dfy` (module `PatientApp`): class `App` with the three collections as
  fields updated in place; each method is proved to perform exactly the
  transition of `Engine` and to keep the invariant `Valid()`.
- `table_copy.dfy` (module `TableCopy`): the grid of a copied selection.
- `tabs.dfy` (module `TabStyle`): the tab font size.

Behaviour modelled as the code has it (a cascade-on-remove design would
differ here):

- Removing a patient pops its data set and its region list but leaves it in
  `combinedPatients`. It drops out of the snapshot only because its region
  list is gone; if the same identifier is loaded again, it is in the
  snapshot as soon as a region is ticked, although its new "Combine Data"
  button was never pressed (`Engine.ReloadedPatientStaysCombined`).
- Releasing "Combine Data" for an identifier that is not in the set is the
  `KeyError` of `set.remove`; pressing it is never checked against the
  loaded patients.
- A combined patient with no region list is absent from the snapshot, not
  mapped to an empty list.
- Selecting regions looks the data set up before writing the region list,
  so an unknown identifier fails with nothing written; this ordering is what
  keeps `keys(patientRegions) ⊆ keys(patientDataSets)`.
- Adding a patient does not recompute the combined summary; the model proves
  the snapshot is unchanged by a load, so the shown summary stays current.
- Errors are returned as a `Status` with the state unchanged. In the code the
  `KeyError`s propagate out of the Qt slot; a failed load shows an error dialog.

## Model

| member | source | states |
|---|---|---|
| `Regions.CheckedIndices` | src/main/python/main.py:175 | the region list is strictly ascending, every entry is a box position, and a position is in it exactly when that box is checked |
| `Regions.CheckedIndicesUnique` | src/main/python/main.py:175 | any strictly ascending list holding exactly the checked positions equals the computed region list |
| `Regions.SelectionInRange` | src/main/python/main.py:136-141 | with the twelve boxes of a tab, every selected region lies in 0..11 |
| `Regions.CheckedOfRoundTrip` | src/main/python/main.py:136-141 | ticking the boxes of a region set and reading them back yields that set in ascending order |
| `Engine.CombinedSnapshot` | src/main/python/main.py:204-206 | the snapshot's keys are the patients that have a region list and are combined, each mapped to its own region list |
| `Engine.LoadPatient` | src/main/python/main.py:252-262 | an already loaded identifier changes nothing; a loader failure changes nothing; otherwise exactly that key is inserted with the loaded handle and every other entry, the region map and the combined set are unchanged |
| `Engine.SelectRegions` | src/main/python/main.py:174-178 | succeeds exactly for a loaded patient; then only that patient's region list is replaced, by a strictly ascending list in 0..11 holding exactly the checked positions; an unknown patient fails with no change |
| `Engine.ToggleCombined` | src/main/python/main.py:222-226 | after success the patient is combined exactly when toggled; releasing a non-member fails with no change; the maps and every other membership are unchanged |
| `Engine.RemovePatient` | src/main/python/main.py:211-214 | succeeds exactly for a loaded patient; then the patient's key leaves both maps, every other entry is unchanged and the combined set is unchanged; otherwise fails with no change |
| `Engine.ApplyPreservesConsistent` | src/main/python/main.py:174-178 | every user action keeps region lists only for loaded patients, each strictly ascending within 0..11 |
| `Engine.RunPreservesConsistent` | src/main/python/main.py:28-30 | any sequence of user actions keeps that invariant |
| `Engine.ReachableConsistent` | src/main/python/main.py:19-35 | every state reachable from a freshly opened viewer satisfies the invariant |
| `Engine.SnapshotWithinLoaded` | src/main/python/main.py:203-206 | only loaded patients reach the combined summary |
| `Engine.LoadKeepsSnapshot` | src/main/python/main.py:252-262 | adding a patient leaves the combined snapshot unchanged |
| `Engine.RemoveSnapshot` | src/main/python/main.py:211-219 | after a removal the snapshot is the previous one without the removed patient |
| `Engine.SelectSnapshot` | src/main/python/main.py:174-183 | a new selection replaces the patient's entry in the snapshot when it is combined and leaves the snapshot as it was otherwise |
| `Engine.ToggleSnapshot` | src/main/python/main.py:222-227 | pressing adds the patient's region list to the snapshot if it has one; releasing removes the patient from it |
| `Engine.CombineIdempotent` | src/main/python/main.py:223-224 | pressing "Combine Data" twice gives the same status and state as pressing it once |
| `Engine.RemoveTwice` | src/main/python/main.py:211-212 | a second removal of the same patient fails and changes nothing |
| `Engine.RemovalCascade` | src/main/python/main.py:203-219 | load, select {2,5}, combine, remove: the snapshot was {P1: [2,5]}, is empty afterwards, P1 stays in the combined set and a new selection for P1 fails |
| `Engine.RecomputeAfterCombine` | src/main/python/main.py:203-227 | with P1 {1,2} combined and P2 {3} not combined the snapshot is {P1: [1,2]}; combining P2 makes it {P1: [1,2], P2: [3]} |
| `Engine.DuplicateLoadKeepsHandle` | src/main/python/main.py:255-258 | loading P1 again reports AlreadyLoaded and keeps the first handle |
| `Engine.ReloadedPatientStaysCombined` | src/main/python/main.py:211-227 | combine, remove and reload P1, then tick region 0: the snapshot is {P1: [0]} without pressing "Combine Data" again |
| `PatientApp.App.constructor` | src/main/python/main.py:28-30 | the viewer starts with empty collections and no combined summary computed |
| `PatientApp.App.UpdateCombined` | src/main/python/main.py:203-208 | the combined view becomes the current snapshot |
| `PatientApp.App.OpenFileDialog` | src/main/python/main.py:252-262 | the collections change exactly as `Engine.LoadPatient` says, the combined view is untouched and the invariant is kept |
| `PatientApp.App.UpdateSelectedRegionSummary` | src/main/python/main.py:174-183 | the collections change exactly as `Engine.SelectRegions` says; on success the combined view is recomputed; the invariant is kept |
| `PatientApp.App.RemoveData` | src/main/python/main.py:211-219 | the collections change exactly as `Engine.RemovePatient` says; on success the recomputed view no longer holds the patient; the invariant is kept |
| `PatientApp.App.CombineData` | src/main/python/main.py:222-227 | the collections change exactly as `Engine.ToggleCombined` says; on success the combined view is recomputed; the invariant is kept |
| `TableCopy.Least` | src/main/python/main.py:160-161 | the first entry of the sorted rows (columns) is one of them and no larger than any |
| `TableCopy.Greatest` | src/main/python/main.py:160-163 | the last entry of the sorted rows (columns) is one of them and no smaller than any |
| `TableCopy.Blank` | src/main/python/main.py:164 | the preallocated grid has the given size and every entry is the empty string |
| `TableCopy.CopySelection` | src/main/python/main.py:157-168 | an empty selection produces nothing; otherwise the grid has (max row − min row + 1) rows of (max column − min column + 1) entries, and entry (i, j) holds what the selection wrote at (min row + i, min column + j) |
| `TableCopy.TextAtSelected` | src/main/python/main.py:165-168 | a selected cell not overwritten later sits at its offset in the grid with its own text |
| `TableCopy.TextAtUnselected` | src/main/python/main.py:164-168 | a position no selected cell occupies stays the empty string |
| `TableCopy.CellInsideGrid` | src/main/python/main.py:160-167 | every selected cell's offset from the top-left corner lies inside the grid |
| `TabStyle.TabFontSize` | src/main/python/main.py:241 | the size is 12 minus three points per complete group of five tabs: at most 12, a multiple of 3 below 12, and the number of steps is count div 5 |
| `TabStyle.FewTabsFullSize` | src/main/python/main.py:241 | fewer than five tabs use 12 pt |
| `TabStyle.FontNeverGrows` | src/main/python/main.py:241 | more tabs never give a larger font |
| `TabStyle.ManyTabsNoPositiveSize` | src/main/python/main.py:241 | from twenty tabs on the formula gives zero or a negative size (it has no lower bound) |

## Left out

- Widgets, layouts, tabs, `clear_layout`, `deleteLater`, the event filter and the clipboard: presentation only. Line 218 deletes the current tab rather than the removed patient's, a UI ordering matter outside the state.
- The directory dialog, including the cancelled case (empty path) at line 252, and `os.path.basename`: the identifier is an input of `OpenFileDialog`.
- `loadmat`: the loader is represented only by its outcome, an `Option` of the handle, which the model consults only for a new identifier.
- `DiffusionParameterData` (`add_data`, `get_regions_summary`, `get_combined_patient_regions_summary`, `remove_patient_data`) and `DataFrameModel` are not part of this model: foreign code. The model stops at the mapping handed to the combined summary (`combinedView`); the summaries themselves are not represented.
- An exception raised by that foreign code after line 258 has already inserted the data set; the resulting collections equal those of a successful load, so the model does not distinguish the two. The error dialog is not modelled.
- What PyQt does with a `KeyError` escaping a slot is not modelled; the model returns `UnknownPatient` or `NotCombined` with the state unchanged.
- `PatientApp.App.UpdateSelectedRegionSummary` and `Engine.SelectRegions` require twelve check-box states: every tab creates exactly twelve boxes (lines 136-141).
- `resize_tabs` reads the tab count from the tab widget; the model takes the count as an input and models only the formula.
- The TSV text produced by `csv.writer` at line 170: library behaviour. The model stops at the grid. Cell data is modelled as a string.
- The sorts at lines 160-161 are modelled by their first and last entries, the only ones used.
