/**
 The selection and aggregation state of the results viewer, as values.

 A state holds the loaded patients (identifier to opaque data-set handle),
 the region list last selected for each patient, and the set of patients
 whose "Combine Data" button is pressed. Each user action is a transition
 from one state to the next, together with a status saying whether the
 action went through. The combined snapshot is the mapping the viewer hands
 to the combined-summary computation after every successful mutation.
 */
module Engine {
  import opened Optional
  import opened Regions

  /** A patient is named by the base name of the directory it was loaded from. */
  type PatientId = string

  datatype AppState<D> = AppState(
    dataSets: map<PatientId, D>,
    regions: map<PatientId, seq<int>>,
    combined: set<PatientId>)

  /**
   How an action ended. AlreadyLoaded is the silent no-op of adding a
   patient twice, LoadFailed the error dialog shown when the loader raises,
   UnknownPatient and NotCombined the KeyErrors raised by a dictionary
   lookup, a `pop` or a `set.remove`.
   */
  datatype Status = Ok | AlreadyLoaded | LoadFailed | UnknownPatient | NotCombined

  datatype Transition<D> = Transition(status: Status, after: AppState<D>)

  /** The state of a freshly opened viewer. */
  function Empty<D>(): AppState<D>
  {
    AppState(map[], map[], {})
  }

  /**
   The invariant every reachable state keeps: a region list exists only for
   a loaded patient, and each one is a strictly ascending list of check-box
   positions.
   */
  ghost predicate Consistent<D>(s: AppState<D>)
  {
    && s.regions.Keys <= s.dataSets.Keys
    && forall id :: id in s.regions ==> StrictlyAscending(s.regions[id]) && InRegionRange(s.regions[id])
  }

  /**
   The mapping passed to the combined summary: the region lists of the
   combined patients. A combined patient with no region list is absent,
   not mapped to an empty list.
   */
  function CombinedSnapshot<D>(s: AppState<D>): (r: map<PatientId, seq<int>>)
    ensures r.Keys == s.regions.Keys * s.combined
    ensures forall id :: id in r ==> r[id] == s.regions[id]
  {
    map id | id in s.regions && id in s.combined :: s.regions[id]
  }

  /**
   Adding a patient. `loaded` is what the external loader produced for the
   patient's directory (None when it raised); it is consulted only when
   the identifier is new.
   */
  function LoadPatient<D>(s: AppState<D>, id: PatientId, loaded: Option<D>): (t: Transition<D>)
    ensures t.after.regions == s.regions && t.after.combined == s.combined
    ensures t.status == Ok <==> id !in s.dataSets && loaded.Some?
    ensures id in s.dataSets ==> t.status == AlreadyLoaded
    ensures id !in s.dataSets && loaded.None? ==> t.status == LoadFailed
    ensures t.status != Ok ==> t.after == s
    ensures t.status == Ok ==>
      && t.after.dataSets.Keys == s.dataSets.Keys + {id}
      && t.after.dataSets[id] == loaded.value
      && forall p :: p in s.dataSets ==> t.after.dataSets[p] == s.dataSets[p]
  {
    if id in s.dataSets then Transition(AlreadyLoaded, s)
    else if loaded.None? then Transition(LoadFailed, s)
    else Transition(Ok, s.(dataSets := s.dataSets[id := loaded.value]))
  }

  /**
   Replacing a patient's region list by the positions of the checked boxes.
   The data set is looked up first, so an unknown patient fails before the
   region map is written.
   */
  function SelectRegions<D>(s: AppState<D>, id: PatientId, checked: seq<bool>): (t: Transition<D>)
    requires |checked| == RegionCount
    ensures t.after.dataSets == s.dataSets && t.after.combined == s.combined
    ensures t.status == Ok <==> id in s.dataSets
    ensures t.status != Ok ==> t.status == UnknownPatient && t.after == s
    ensures t.status == Ok ==>
      && t.after.regions.Keys == s.regions.Keys + {id}
      && (forall p :: p in s.regions && p != id ==> t.after.regions[p] == s.regions[p])
      && StrictlyAscending(t.after.regions[id])
      && InRegionRange(t.after.regions[id])
      && forall i :: i in t.after.regions[id] <==> 0 <= i < RegionCount && checked[i]
  {
    if id !in s.dataSets then Transition(UnknownPatient, s)
    else Transition(Ok, s.(regions := s.regions[id := CheckedIndices(checked)]))
  }

  /**
   Pressing or releasing a patient's "Combine Data" button. Releasing it
   for a patient that is not combined is the KeyError of `set.remove`.
   Membership of the set is not checked against the loaded patients.
   */
  function ToggleCombined<D>(s: AppState<D>, id: PatientId, toggled: bool): (t: Transition<D>)
    ensures t.after.dataSets == s.dataSets && t.after.regions == s.regions
    ensures t.status == NotCombined <==> !toggled && id !in s.combined
    ensures t.status != Ok ==> t.status == NotCombined && t.after == s
    ensures t.status == Ok ==> (id in t.after.combined <==> toggled)
    ensures forall p :: p != id ==> (p in t.after.combined <==> p in s.combined)
  {
    if toggled then Transition(Ok, s.(combined := s.combined + {id}))
    else if id !in s.combined then Transition(NotCombined, s)
    else Transition(Ok, s.(combined := s.combined - {id}))
  }

  /**
   Removing a patient: its data set is popped (KeyError when absent), then
   its region list if it has one. Its membership of the combined set is
   left as it is.
   */
  function RemovePatient<D>(s: AppState<D>, id: PatientId): (t: Transition<D>)
    ensures t.after.combined == s.combined
    ensures t.status == Ok <==> id in s.dataSets
    ensures t.status != Ok ==> t.status == UnknownPatient && t.after == s
    ensures t.status == Ok ==>
      && t.after.dataSets.Keys == s.dataSets.Keys - {id}
      && t.after.regions.Keys == s.regions.Keys - {id}
      && (forall p :: p in t.after.dataSets ==> t.after.dataSets[p] == s.dataSets[p])
      && (forall p :: p in t.after.regions ==> t.after.regions[p] == s.regions[p])
  {
    if id !in s.dataSets then Transition(UnknownPatient, s)
    else Transition(Ok, s.(dataSets := s.dataSets - {id}, regions := s.regions - {id}))
  }

  // ---------------------------------------------------------------------
  // The invariant over every reachable state

  /** One user action, as the viewer dispatches it. */
  datatype Action<D> =
    | Open(id: PatientId, loaded: Option<D>)
    | Select(id: PatientId, checked: seq<bool>)
    | Combine(id: PatientId, toggled: bool)
    | Remove(id: PatientId)

  /** A selection always comes from the twelve boxes of a tab. */
  predicate WellFormed<D>(a: Action<D>)
  {
    a.Select? ==> |a.checked| == RegionCount
  }

  function Apply<D>(s: AppState<D>, a: Action<D>): Transition<D>
    requires WellFormed(a)
  {
    match a
    case Open(id, loaded) => LoadPatient(s, id, loaded)
    case Select(id, checked) => SelectRegions(s, id, checked)
    case Combine(id, toggled) => ToggleCombined(s, id, toggled)
    case Remove(id) => RemovePatient(s, id)
  }

  /** The state after a sequence of actions, one at a time. */
  function Run<D>(s: AppState<D>, actions: seq<Action<D>>): AppState<D>
    requires forall k :: 0 <= k < |actions| ==> WellFormed(actions[k])
    decreases |actions|
  {
    if actions == [] then s else Run(Apply(s, actions[0]).after, actions[1..])
  }

  /** Every action keeps the invariant. */
  lemma ApplyPreservesConsistent<D>(s: AppState<D>, a: Action<D>)
    requires WellFormed(a) && Consistent(s)
    ensures Consistent(Apply(s, a).after)
  {
  }

  lemma {:induction false} RunPreservesConsistent<D>(s: AppState<D>, actions: seq<Action<D>>)
    requires forall k :: 0 <= k < |actions| ==> WellFormed(actions[k])
    requires Consistent(s)
    ensures Consistent(Run(s, actions))
    decreases |actions|
  {
    if actions != [] {
      ApplyPreservesConsistent(s, actions[0]);
      RunPreservesConsistent(Apply(s, actions[0]).after, actions[1..]);
    }
  }

  /** Every state reachable from a fresh viewer is consistent. */
  lemma ReachableConsistent<D>(actions: seq<Action<D>>)
    requires forall k :: 0 <= k < |actions| ==> WellFormed(actions[k])
    ensures Consistent(Run(Empty<D>(), actions))
  {
    RunPreservesConsistent(Empty<D>(), actions);
  }

  // ---------------------------------------------------------------------
  // The combined snapshot

  /** Only loaded patients ever reach the combined summary. */
  lemma SnapshotWithinLoaded<D>(s: AppState<D>)
    requires Consistent(s)
    ensures CombinedSnapshot(s).Keys <= s.dataSets.Keys
  {
  }

  /**
   Adding a patient leaves the snapshot as it was, which is why the viewer
   does not recompute the combined summary after a load.
   */
  lemma LoadKeepsSnapshot<D>(s: AppState<D>, id: PatientId, loaded: Option<D>)
    ensures CombinedSnapshot(LoadPatient(s, id, loaded).after) == CombinedSnapshot(s)
  {
  }

  /** After a removal the patient is gone from the snapshot; nothing else changes in it. */
  lemma RemoveSnapshot<D>(s: AppState<D>, id: PatientId)
    requires Consistent(s)
    ensures id !in CombinedSnapshot(RemovePatient(s, id).after)
    ensures CombinedSnapshot(RemovePatient(s, id).after) == CombinedSnapshot(s) - {id}
  {
  }

  /** A new selection shows up in the snapshot exactly when the patient is combined. */
  lemma SelectSnapshot<D>(s: AppState<D>, id: PatientId, checked: seq<bool>)
    requires |checked| == RegionCount && id in s.dataSets
    ensures var after := CombinedSnapshot(SelectRegions(s, id, checked).after);
      if id in s.combined then after == CombinedSnapshot(s)[id := CheckedIndices(checked)]
      else after == CombinedSnapshot(s)
  {
  }

  /**
   Pressing "Combine Data" adds the patient's region list to the snapshot,
   if it has one; releasing it takes the patient out.
   */
  lemma ToggleSnapshot<D>(s: AppState<D>, id: PatientId, toggled: bool)
    ensures var after := CombinedSnapshot(ToggleCombined(s, id, toggled).after);
      if !toggled then after == CombinedSnapshot(s) - {id}
      else if id in s.regions then after == CombinedSnapshot(s)[id := s.regions[id]]
      else after == CombinedSnapshot(s)
  {
  }

  // ---------------------------------------------------------------------
  // Idempotence and repeated actions

  /** Pressing "Combine Data" twice is the same as pressing it once. */
  lemma CombineIdempotent<D>(s: AppState<D>, id: PatientId)
    ensures var once := ToggleCombined(s, id, true);
      ToggleCombined(once.after, id, true) == once
  {
  }

  /** Removing a patient a second time fails and changes nothing. */
  lemma RemoveTwice<D>(s: AppState<D>, id: PatientId)
    ensures var once := RemovePatient(s, id).after;
      RemovePatient(once, id) == Transition(UnknownPatient, once)
  {
  }

  // ---------------------------------------------------------------------
  // Worked sequences of actions

  /**
   Load P1, select regions 2 and 5, combine it, remove it: P1 is gone from
   the snapshot and a later selection for P1 fails, although P1 is still in
   the combined set.
   */
  lemma RemovalCascade<D>(h: D)
    ensures
      var s1 := LoadPatient(Empty<D>(), "P1", Some(h)).after;
      var s2 := SelectRegions(s1, "P1", CheckedOf({2, 5})).after;
      var s3 := ToggleCombined(s2, "P1", true).after;
      var s4 := RemovePatient(s3, "P1");
      && CombinedSnapshot(s3) == map["P1" := [2, 5]]
      && s4.status == Ok
      && CombinedSnapshot(s4.after) == map[]
      && "P1" in s4.after.combined
      && SelectRegions(s4.after, "P1", CheckedOf({1})).status == UnknownPatient
  {
    CheckedOfRoundTrip({2, 5}, [2, 5]);
    var s1 := LoadPatient(Empty<D>(), "P1", Some(h)).after;
    var s2 := SelectRegions(s1, "P1", CheckedOf({2, 5})).after;
    var s3 := ToggleCombined(s2, "P1", true).after;
    assert CombinedSnapshot(s3).Keys == {"P1"};
  }

  /**
   P1 with regions 1 and 2 combined, P2 with region 3 not combined: the
   snapshot holds P1 only; combining P2 adds it.
   */
  lemma RecomputeAfterCombine<D>(h1: D, h2: D)
    ensures
      var s1 := LoadPatient(Empty<D>(), "P1", Some(h1)).after;
      var s2 := LoadPatient(s1, "P2", Some(h2)).after;
      var s3 := SelectRegions(s2, "P1", CheckedOf({1, 2})).after;
      var s4 := SelectRegions(s3, "P2", CheckedOf({3})).after;
      var s5 := ToggleCombined(s4, "P1", true).after;
      var s6 := ToggleCombined(s5, "P2", true).after;
      && CombinedSnapshot(s5) == map["P1" := [1, 2]]
      && CombinedSnapshot(s6) == map["P1" := [1, 2], "P2" := [3]]
  {
    CheckedOfRoundTrip({1, 2}, [1, 2]);
    CheckedOfRoundTrip({3}, [3]);
    var s1 := LoadPatient(Empty<D>(), "P1", Some(h1)).after;
    var s2 := LoadPatient(s1, "P2", Some(h2)).after;
    var s3 := SelectRegions(s2, "P1", CheckedOf({1, 2})).after;
    var s4 := SelectRegions(s3, "P2", CheckedOf({3})).after;
    var s5 := ToggleCombined(s4, "P1", true).after;
    var s6 := ToggleCombined(s5, "P2", true).after;
    assert CombinedSnapshot(s5).Keys == {"P1"};
    assert CombinedSnapshot(s6).Keys == {"P1", "P2"};
  }

  /** Loading P1 a second time is ignored and keeps the first handle. */
  lemma DuplicateLoadKeepsHandle<D>(h1: D, h2: D, second: Option<D>)
    ensures
      var s1 := LoadPatient(Empty<D>(), "P1", Some(h1)).after;
      var t := LoadPatient(s1, "P1", second);
      t.status == AlreadyLoaded && t.after.dataSets["P1"] == h1
  {
  }

  /**
   Because removal keeps the combined membership, a patient that was
   combined, removed and loaded again is in the snapshot as soon as a region
   is selected, without its (new, released) "Combine Data" button being
   pressed.
   */
  lemma ReloadedPatientStaysCombined<D>(h1: D, h2: D)
    ensures
      var s1 := LoadPatient(Empty<D>(), "P1", Some(h1)).after;
      var s2 := ToggleCombined(s1, "P1", true).after;
      var s3 := RemovePatient(s2, "P1").after;
      var s4 := LoadPatient(s3, "P1", Some(h2)).after;
      var s5 := SelectRegions(s4, "P1", CheckedOf({0})).after;
      CombinedSnapshot(s5) == map["P1" := [0]]
  {
    CheckedOfRoundTrip({0}, [0]);
    var s1 := LoadPatient(Empty<D>(), "P1", Some(h1)).after;
    var s2 := ToggleCombined(s1, "P1", true).after;
    var s3 := RemovePatient(s2, "P1").after;
    var s4 := LoadPatient(s3, "P1", Some(h2)).after;
    var s5 := SelectRegions(s4, "P1", CheckedOf({0})).after;
    assert CombinedSnapshot(s5).Keys == {"P1"};
  }
}
