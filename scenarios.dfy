/** Request sequences against the store, showing what callers of the handlers can rely on. */
module Scenarios {
  import opened Wrappers
  import opened Models
  import opened Targets
  import opened Handlers

  const Breeds: seq<string> := ["Abyssinian", "Bengal"]
  const Tom: SpyCat := SpyCat("Tom", 3, "Abyssinian", 1000.0)
  const Kit: SpyCat := SpyCat("Kit", 1, "Bengal", 500.0)
  /** Two targets, notes and complete omitted. */
  const TwoTargets: Mission := Mission([Target("A", "X", None, None), Target("B", "Y", None, None)])

  /** Create a cat, read it back, change its salary, read it back: the fields read are the ones sent,
      and the update changes the salary alone. */
  method CatRoundTrip(store: Store, cat: SpyCat, validBreeds: seq<string>, salary: real)
    returns (created: Result<CatRecord>, fetched: Result<CatRecord>, refetched: Result<CatRecord>)
    requires store.Valid()
    requires ValidSpyCat(cat) && cat.breed in validBreeds && salary > 0.0
    modifies store
    ensures store.Valid()
    ensures created.Ok? && fetched == created
    ensures created.value.name == cat.name && created.value.yearsOfExperience == cat.yearsOfExperience
    ensures created.value.breed == cat.breed && created.value.salary == cat.salary
    ensures refetched == Ok(created.value.(salary := salary))
  {
    created := store.CreateCat(cat, validBreeds);
    fetched := store.GetCat(created.value.id);
    var _ := store.UpdateCat(created.value.id, SpyCatUpdate(salary));
    refetched := store.GetCat(created.value.id);
  }

  /** A new mission with targets A and B has nothing complete; marking A and then B complete
      completes the mission. */
  method CompleteBothTargets() returns (created: Result<MissionRecord>, afterA: Result<MissionRecord>, afterB: Result<MissionRecord>)
    ensures created.Ok? && !created.value.complete
    ensures |created.value.targets| == 2 && !created.value.targets[0].complete && !created.value.targets[1].complete
    ensures afterA.Ok? && !afterA.value.complete
    ensures afterB.Ok? && afterB.value.complete
  {
    var store := new Store();
    created := store.CreateMission(TwoTargets);
    var m := created.value;
    afterA := store.UpdateTarget(m.id, m.targets[0].id, MissionUpdate(None, Some(true)));
    afterB := store.UpdateTarget(m.id, m.targets[1].id, MissionUpdate(None, Some(true)));
  }

  /** After a mission is complete, setting a target back to incomplete is accepted but the mission stays
      complete, and notes on that now incomplete target are refused because the mission is complete. */
  method ReopenedTargetKeepsMissionComplete() returns (reopened: Result<MissionRecord>, notes: Result<MissionRecord>)
    ensures reopened.Ok? && reopened.value.complete
    ensures |reopened.value.targets| == 2 && !reopened.value.targets[0].complete
    ensures notes == Err(InvalidState)
  {
    var store := new Store();
    var created := store.CreateMission(TwoTargets);
    var m := created.value;
    var _ := store.UpdateTarget(m.id, m.targets[0].id, MissionUpdate(None, Some(true)));
    var _ := store.UpdateTarget(m.id, m.targets[1].id, MissionUpdate(None, Some(true)));
    reopened := store.UpdateTarget(m.id, m.targets[0].id, MissionUpdate(None, Some(false)));
    notes := store.UpdateTarget(m.id, m.targets[0].id, MissionUpdate(Some("seen"), None));
  }

  /** A cat that holds a mission cannot be assigned to a second one, which stays unassigned;
      and the first mission, now assigned, cannot be deleted and stays stored. */
  method AssignedCatAndMission() returns (second: Result<MissionRecord>, secondAfter: Result<MissionRecord>,
                                          deleted: Result<()>, firstAfter: Result<MissionRecord>)
    ensures second == Err(InvalidState)
    ensures secondAfter.Ok? && secondAfter.value.catId == None
    ensures deleted == Err(InvalidState)
    ensures firstAfter.Ok? && firstAfter.value.catId.Some?
  {
    var store := new Store();
    var cat := store.CreateCat(Tom, Breeds);
    var m1 := store.CreateMission(TwoTargets);
    var m2 := store.CreateMission(TwoTargets);
    var _ := store.AssignCatToMission(m1.value.id, AssignCat(cat.value.id));
    second := store.AssignCatToMission(m2.value.id, AssignCat(cat.value.id));
    secondAfter := store.GetMission(m2.value.id);
    deleted := store.DeleteMission(m1.value.id);
    firstAfter := store.GetMission(m1.value.id);
  }

  /** Assigning a second cat to a mission is accepted and leaves the first cat's mission_id pointing at
      a mission that no longer names it: the two references are not kept mirrored. */
  method ReassignmentOrphansFirstCat() returns (first: Result<CatRecord>, mission: Result<MissionRecord>)
    ensures first.Ok? && mission.Ok?
    ensures first.value.missionId == Some(mission.value.id)
    ensures mission.value.catId.Some? && mission.value.catId.value != first.value.id
  {
    var store := new Store();
    var tom := store.CreateCat(Tom, Breeds);
    var kit := store.CreateCat(Kit, Breeds);
    var m := store.CreateMission(TwoTargets);
    var _ := store.AssignCatToMission(m.value.id, AssignCat(tom.value.id));
    var _ := store.AssignCatToMission(m.value.id, AssignCat(kit.value.id));
    first := store.GetCat(tom.value.id);
    mission := store.GetMission(m.value.id);
  }

  /** Deleting an assigned cat is accepted; the mission keeps naming the deleted cat and so can no
      longer be deleted. */
  method DeletedCatStillBlocksMission() returns (deletedCat: Result<()>, mission: Result<MissionRecord>, deletedMission: Result<()>)
    ensures deletedCat == Ok(())
    ensures mission.Ok? && mission.value.catId.Some?
    ensures deletedMission == Err(InvalidState)
  {
    var store := new Store();
    var cat := store.CreateCat(Tom, Breeds);
    var m := store.CreateMission(TwoTargets);
    var _ := store.AssignCatToMission(m.value.id, AssignCat(cat.value.id));
    deletedCat := store.DeleteCat(cat.value.id);
    mission := store.GetMission(m.value.id);
    var gone := store.GetCat(cat.value.id);
    assert gone == Err(NotFound);
    deletedMission := store.DeleteMission(m.value.id);
  }
}
