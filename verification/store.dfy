/** The in-memory part of `upsertProfile` and `deleteProfile` in
    src/ui/state/store.js: the list of saved measurement profiles and the id
    of the profile used last.  Saving to `localStorage` is not modelled. */
module Store {
  import opened Js

  /** A saved profile; only its `id` matters to the store. */
  datatype Profile = Profile(id: string, name: string, moduleId: string, values: map<string, Value>)

  datatype State = State(
    profiles: seq<Profile>,
    lastProfileId: Option<string>,
    selectedModuleId: Option<string>,
    theme: Option<string>)

  /** No two profiles share an id. */
  predicate UniqueIds(ps: seq<Profile>) {
    forall i, j :: 0 <= i < j < |ps| ==> ps[i].id != ps[j].id
  }

  /** `profiles.findIndex((item) => item.id === id)`: the first index
      holding `id`, or -1. */
  function FindIndex(ps: seq<Profile>, id: string): (k: int)
    ensures -1 <= k < |ps|
    ensures k == -1 <==> forall i :: 0 <= i < |ps| ==> ps[i].id != id
    ensures k >= 0 ==> ps[k].id == id && forall i :: 0 <= i < k ==> ps[i].id != id
    decreases |ps|
  {
    if |ps| == 0 then -1
    else if ps[0].id == id then 0
    else
      var k := FindIndex(ps[1..], id);
      if k == -1 then -1 else k + 1
  }

  /** `upsertProfile(state, profile)`: an existing id is replaced where it
      stands, a new one is appended, and the profile becomes the last used. */
  function Upsert(state: State, profile: Profile): (r: State)
    ensures var k := FindIndex(state.profiles, profile.id);
      && (k >= 0 ==> r.profiles == state.profiles[k := profile])
      && (k == -1 ==> r.profiles == state.profiles + [profile])
    ensures r.lastProfileId == Some(profile.id)
    ensures r.selectedModuleId == state.selectedModuleId && r.theme == state.theme
  {
    var k := FindIndex(state.profiles, profile.id);
    var profiles := if k >= 0 then state.profiles[k := profile] else state.profiles + [profile];
    state.(profiles := profiles, lastProfileId := Some(profile.id))
  }

  /** `profiles.filter((item) => item.id !== id)`. */
  function Without(ps: seq<Profile>, id: string): (r: seq<Profile>)
    ensures |r| <= |ps|
    ensures forall p :: p in r <==> p in ps && p.id != id
    decreases |ps|
  {
    if |ps| == 0 then []
    else (if ps[0].id != id then [ps[0]] else []) + Without(ps[1..], id)
  }

  /** `deleteProfile(state, id)`: every profile with the id goes; when it was
      the last used, the first remaining profile's id takes its place, or
      null when none remains (or that id is the empty string). */
  function Delete(state: State, id: string): (r: State)
    ensures r.profiles == Without(state.profiles, id)
    ensures state.lastProfileId != Some(id) ==> r.lastProfileId == state.lastProfileId
    ensures state.lastProfileId == Some(id) && |r.profiles| == 0 ==> r.lastProfileId.None?
    ensures state.lastProfileId == Some(id) && |r.profiles| > 0 && r.profiles[0].id != "" ==>
      r.lastProfileId == Some(r.profiles[0].id)
    ensures state.lastProfileId == Some(id) && |r.profiles| > 0 && r.profiles[0].id == "" ==> r.lastProfileId.None?
    ensures r.lastProfileId.Some? ==> r.lastProfileId.value != id
    ensures r.selectedModuleId == state.selectedModuleId && r.theme == state.theme
  {
    var profiles := Without(state.profiles, id);
    var last :=
      if state.lastProfileId == Some(id) then
        if |profiles| > 0 && profiles[0].id != "" then Some(profiles[0].id) else None
      else state.lastProfileId;
    assert |profiles| > 0 ==> profiles[0] in profiles;
    state.(profiles := profiles, lastProfileId := last)
  }

  /** Filtering distributes over concatenation, so the survivors keep their
      relative order. */
  lemma {:induction false} WithoutConcat(a: seq<Profile>, b: seq<Profile>, id: string)
    ensures Without(a + b, id) == Without(a, id) + Without(b, id)
    decreases |a|
  {
    if |a| == 0 {
      assert a + b == b;
    } else {
      assert (a + b)[1..] == a[1..] + b;
      WithoutConcat(a[1..], b, id);
    }
  }

  /** Profiles with other ids are all kept. */
  lemma {:induction false} WithoutAbsent(ps: seq<Profile>, id: string)
    requires forall i :: 0 <= i < |ps| ==> ps[i].id != id
    ensures Without(ps, id) == ps
    decreases |ps|
  {
    if |ps| > 0 {
      WithoutAbsent(ps[1..], id);
    }
  }

  /** The survivors of a list with distinct ids still have distinct ids. */
  lemma {:induction false} WithoutUnique(ps: seq<Profile>, id: string)
    requires UniqueIds(ps)
    ensures UniqueIds(Without(ps, id))
    decreases |ps|
  {
    if |ps| > 0 {
      WithoutUnique(ps[1..], id);
      var rest := Without(ps[1..], id);
      forall p | p in rest ensures p.id != ps[0].id {
        var i :| 0 <= i < |ps[1..]| && ps[1..][i] == p;
        assert ps[i + 1] == p;
      }
    }
  }

  /** Upserting keeps ids distinct, the list grows by one exactly for a new
      id, and the profile can be found afterwards at its index. */
  lemma UpsertKeepsIdsUnique(state: State, profile: Profile)
    requires UniqueIds(state.profiles)
    ensures UniqueIds(Upsert(state, profile).profiles)
    ensures |Upsert(state, profile).profiles| ==
      |state.profiles| + (if FindIndex(state.profiles, profile.id) == -1 then 1 else 0)
    ensures var ps := Upsert(state, profile).profiles;
      FindIndex(ps, profile.id) >= 0 && ps[FindIndex(ps, profile.id)] == profile
  {
    var ps := Upsert(state, profile).profiles;
    var k := FindIndex(state.profiles, profile.id);
    if k >= 0 {
      forall i, j | 0 <= i < j < |ps| ensures ps[i].id != ps[j].id {
        if i == k || j == k {
          assert state.profiles[k].id == profile.id;
        }
      }
      assert ps[k] == profile;
      assert FindIndex(ps, profile.id) == k by {
        forall i | 0 <= i < k ensures ps[i].id != profile.id { assert ps[i] == state.profiles[i]; }
      }
    } else {
      assert ps[|state.profiles|] == profile;
      assert FindIndex(ps, profile.id) == |state.profiles| by {
        forall i | 0 <= i < |state.profiles| ensures ps[i].id != profile.id { assert ps[i] == state.profiles[i]; }
      }
    }
  }

  /** Deleting after upserting removes the profile again: a new profile
      leaves the list as it was. */
  lemma DeleteUndoesInsert(state: State, profile: Profile)
    requires FindIndex(state.profiles, profile.id) == -1
    ensures Delete(Upsert(state, profile), profile.id).profiles == state.profiles
    ensures Delete(Upsert(state, profile), profile.id).lastProfileId.None? <==>
      |state.profiles| == 0 || state.profiles[0].id == ""
  {
    WithoutConcat(state.profiles, [profile], profile.id);
    WithoutAbsent(state.profiles, profile.id);
    assert [profile][1..] == [];
  }

  /** Deleting twice is deleting once. */
  lemma DeleteIdempotent(state: State, id: string)
    ensures Delete(Delete(state, id), id) == Delete(state, id)
  {
    var ps := Without(state.profiles, id);
    assert forall i :: 0 <= i < |ps| ==> ps[i].id != id by {
      forall i | 0 <= i < |ps| ensures ps[i].id != id { assert ps[i] in ps; }
    }
    WithoutAbsent(ps, id);
  }
}
