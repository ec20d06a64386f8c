/**
 The viewer's window object with the three collections it updates in place:
 the loaded data sets, the region lists and the combined set, and the
 snapshot last handed to the combined summary table. Each method is one
 user action; its effect on the collections is the corresponding transition
 of module Engine.
 */
module PatientApp {
  import opened Optional
  import opened Regions
  import opened Engine

  class App<D> {
    var patientDataSets: map<PatientId, D>
    var patientRegions: map<PatientId, seq<int>>
    var combinedPatients: set<PatientId>
    /** The mapping the combined summary table was last computed from; None before the first recompute. */
    var combinedView: Option<map<PatientId, seq<int>>>

    function State(): AppState<D>
      reads this
    {
      AppState(patientDataSets, patientRegions, combinedPatients)
    }

    /**
     The collections are consistent, and the combined table always shows the
     current snapshot: before the first recompute no region has been selected
     yet, so the snapshot is empty.
     */
    ghost predicate Valid()
      reads this
    {
      && Consistent(State())
      && (combinedView.Some? ==> combinedView.value == CombinedSnapshot(State()))
      && (combinedView.None? ==> CombinedSnapshot(State()) == map[])
    }

    constructor ()
      ensures Valid()
      ensures State() == Empty<D>() && combinedView == None
    {
      patientDataSets := map[];
      patientRegions := map[];
      combinedPatients := {};
      combinedView := None;
    }

    /** Recomputes the combined summary from the current collections. */
    method UpdateCombined()
      modifies this`combinedView
      ensures combinedView == Some(CombinedSnapshot(State()))
    {
      combinedView := Some(map id | id in patientRegions && id in combinedPatients :: patientRegions[id]);
    }

    /**
     "Add Patient": `loaded` is the loader's result for the chosen directory
     (None when it raised). The combined summary is not recomputed.
     */
    method OpenFileDialog(id: PatientId, loaded: Option<D>) returns (status: Status)
      requires Valid()
      modifies this
      ensures Valid()
      ensures var t := LoadPatient(old(State()), id, loaded);
        status == t.status && State() == t.after
      ensures combinedView == old(combinedView)
    {
      status := Ok;
      if id in patientDataSets {
        status := AlreadyLoaded;
        return;
      }
      if loaded.None? {
        status := LoadFailed;
        return;
      }
      patientDataSets := patientDataSets[id := loaded.value];
      LoadKeepsSnapshot(old(State()), id, loaded);
    }

    /** A region check box was clicked: store the checked positions, then recompute. */
    method UpdateSelectedRegionSummary(id: PatientId, checked: seq<bool>) returns (status: Status)
      requires Valid() && |checked| == RegionCount
      modifies this
      ensures Valid()
      ensures var t := SelectRegions(old(State()), id, checked);
        status == t.status && State() == t.after
      ensures status == Ok ==> combinedView == Some(CombinedSnapshot(State()))
      ensures status != Ok ==> combinedView == old(combinedView)
    {
      var regions := CheckedIndices(checked);
      if id !in patientDataSets {
        status := UnknownPatient;
        return;
      }
      patientRegions := patientRegions[id := regions];
      status := Ok;
      UpdateCombined();
    }

    /** "Remove Patient": drop the data set and any region list, then recompute. */
    method RemoveData(id: PatientId) returns (status: Status)
      requires Valid()
      modifies this
      ensures Valid()
      ensures var t := RemovePatient(old(State()), id);
        status == t.status && State() == t.after
      ensures status == Ok ==> combinedView == Some(CombinedSnapshot(State())) && id !in combinedView.value
      ensures status != Ok ==> combinedView == old(combinedView)
    {
      if id !in patientDataSets {
        status := UnknownPatient;
        return;
      }
      patientDataSets := patientDataSets - {id};
      if id in patientRegions {
        patientRegions := patientRegions - {id};
      }
      status := Ok;
      RemoveSnapshot(old(State()), id);
      UpdateCombined();
    }

    /** "Combine Data" was pressed (`toggled`) or released, then recompute. */
    method CombineData(id: PatientId, toggled: bool) returns (status: Status)
      requires Valid()
      modifies this
      ensures Valid()
      ensures var t := ToggleCombined(old(State()), id, toggled);
        status == t.status && State() == t.after
      ensures status == Ok ==> combinedView == Some(CombinedSnapshot(State()))
      ensures status != Ok ==> combinedView == old(combinedView)
    {
      if toggled {
        combinedPatients := combinedPatients + {id};
      } else {
        if id !in combinedPatients {
          status := NotCombined;
          return;
        }
        combinedPatients := combinedPatients - {id};
      }
      status := Ok;
      UpdateCombined();
    }
  }
}
