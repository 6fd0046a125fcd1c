/** The request handlers of main.py over the two in-memory tables cats_db and missions_db.
    Each handler is one atomic method of Store. Body validation by the web framework happens
    before a handler runs, so a body that breaks its field constraints is refused with
    InvalidInput before anything else is looked at. */
module Handlers {
  import opened Wrappers
  import opened Models
  import opened Targets
  import Helper
  import Ids

  /** list(d.values()): one entry per key of the table, in some order; ks is the key each entry came from. */
  method ValuesOf<V>(m: map<string, V>) returns (r: seq<V>, ks: seq<string>)
    ensures |r| == |ks| == |m|
    ensures forall i, j :: 0 <= i < j < |ks| ==> ks[i] != ks[j]
    ensures forall k :: k in m <==> k in ks
    ensures forall i :: 0 <= i < |r| ==> ks[i] in m && r[i] == m[ks[i]]
  {
    var keys := m.Keys;
    r, ks := [], [];
    while keys != {}
      invariant keys <= m.Keys
      invariant |r| == |ks| && |r| + |keys| == |m|
      invariant forall i, j :: 0 <= i < j < |ks| ==> ks[i] != ks[j]
      invariant forall k :: k in ks <==> k in m && k !in keys
      invariant forall i :: 0 <= i < |r| ==> ks[i] in m && r[i] == m[ks[i]]
      decreases |keys|
    {
      var k :| k in keys;
      r, ks := r + [m[k]], ks + [k];
      keys := keys - {k};
    }
  }

  /** Stored targets for the targets of a creation body, in the same order, each with its defaults
      applied and its own generated id, no two alike. */
  method WithTargetIds(targets: seq<Target>) returns (ts: seq<TargetRecord>)
    ensures |ts| == |targets|
    ensures forall j :: 0 <= j < |targets| ==> ts[j] == TargetWithId(targets[j], ts[j].id)
    ensures DistinctIds(ts)
  {
    ts := [];
    var used: set<string> := {};
    for i := 0 to |targets|
      invariant |ts| == i
      invariant forall j :: 0 <= j < i ==> ts[j] == TargetWithId(targets[j], ts[j].id)
      invariant forall j :: 0 <= j < i ==> ts[j].id in used
      invariant DistinctIds(ts)
    {
      var id := Ids.FreshId(used);
      ts := ts + [TargetWithId(targets[i], id)];
      used := used + {id};
    }
  }

  class Store {
    var cats: map<string, CatRecord>
    var missions: map<string, MissionRecord>

    /** Every record is stored under its own id, and every stored mission has one to three
        targets with distinct ids. */
    ghost predicate Valid()
      reads this
    {
      && (forall k :: k in cats ==> cats[k].id == k)
      && (forall k :: k in missions ==> missions[k].id == k)
      && (forall k :: k in missions ==> 1 <= |missions[k].targets| <= 3 && DistinctIds(missions[k].targets))
    }

    /** Both tables start empty. */
    constructor ()
      ensures Valid()
      ensures cats == map[] && missions == map[]
    {
      cats := map[];
      missions := map[];
    }

    /** create_cat: refuses a body that breaks its constraints or whose breed is not valid, leaving the
        tables alone; otherwise stores the body's fields under a new id with no mission. */
    method CreateCat(cat: SpyCat, validBreeds: seq<string>) returns (r: Result<CatRecord>)
      requires Valid()
      modifies this
      ensures Valid()
      ensures missions == old(missions)
      ensures r.Ok? <==> ValidSpyCat(cat) && cat.breed in validBreeds
      ensures r.Err? ==> r.error == InvalidInput && cats == old(cats)
      ensures r.Ok? ==>
        && r.value.id !in old(cats)
        && cats == old(cats)[r.value.id := r.value]
        && r.value.name == cat.name && r.value.yearsOfExperience == cat.yearsOfExperience
        && r.value.breed == cat.breed && r.value.salary == cat.salary
        && r.value.missionId == None
    {
      if !ValidSpyCat(cat) {
        return Err(InvalidInput);
      }
      var check := Helper.ValidateBreed(cat.breed, validBreeds);
      if check.Err? {
        return Err(check.error);
      }
      var id := Ids.FreshId(cats.Keys);
      var record := CatRecord(id, cat.name, cat.yearsOfExperience, cat.breed, cat.salary, None);
      cats := cats[id := record];
      return Ok(record);
    }

    /** list_cats: one entry per stored cat: each entry is the cat stored under its id, no id is
        listed twice, and every stored cat is listed. */
    method ListCats() returns (r: seq<CatRecord>)
      requires Valid()
      ensures |r| == |cats|
      ensures forall i :: 0 <= i < |r| ==> r[i].id in cats && cats[r[i].id] == r[i]
      ensures forall i, j :: 0 <= i < j < |r| ==> r[i].id != r[j].id
      ensures forall k :: k in cats ==> cats[k] in r
    {
      var ks;
      r, ks := ValuesOf(cats);
      forall k | k in cats ensures cats[k] in r {
        var i :| 0 <= i < |ks| && ks[i] == k;
        assert r[i] == cats[k];
      }
    }

    /** get_cat: the stored cat, or NotFound. */
    method GetCat(catId: string) returns (r: Result<CatRecord>)
      ensures catId in cats ==> r == Ok(cats[catId])
      ensures catId !in cats ==> r == Err(NotFound)
    {
      if catId !in cats {
        return Err(NotFound);
      }
      return Ok(cats[catId]);
    }

    /** update_cat: sets the salary of the named cat and nothing else. */
    method UpdateCat(catId: string, update: SpyCatUpdate) returns (r: Result<CatRecord>)
      requires Valid()
      modifies this
      ensures Valid()
      ensures missions == old(missions)
      ensures !ValidSpyCatUpdate(update) ==> r == Err(InvalidInput) && cats == old(cats)
      ensures ValidSpyCatUpdate(update) && catId !in old(cats) ==> r == Err(NotFound) && cats == old(cats)
      ensures ValidSpyCatUpdate(update) && catId in old(cats) ==>
        && r == Ok(old(cats)[catId].(salary := update.salary))
        && cats == old(cats)[catId := r.value]
    {
      if !ValidSpyCatUpdate(update) {
        return Err(InvalidInput);
      }
      if catId !in cats {
        return Err(NotFound);
      }
      var record := cats[catId].(salary := update.salary);
      cats := cats[catId := record];
      return Ok(record);
    }

    /** delete_cat: removes the cat whatever its mission, and leaves every mission as it was,
        including one whose cat_id names the deleted cat. */
    method DeleteCat(catId: string) returns (r: Result<()>)
      requires Valid()
      modifies this
      ensures Valid()
      ensures missions == old(missions)
      ensures catId !in old(cats) ==> r == Err(NotFound) && cats == old(cats)
      ensures catId in old(cats) ==> r == Ok(()) && cats == old(cats) - {catId}
    {
      if catId !in cats {
        return Err(NotFound);
      }
      cats := cats - {catId};
      return Ok(());
    }

    /** create_mission: refuses a body without one to three targets; otherwise stores a mission under
        a new id, with no cat, not complete, and the body's targets in order, each with its own id. */
    method CreateMission(mission: Mission) returns (r: Result<MissionRecord>)
      requires Valid()
      modifies this
      ensures Valid()
      ensures cats == old(cats)
      ensures !ValidMission(mission) ==> r == Err(InvalidInput) && missions == old(missions)
      ensures ValidMission(mission) ==>
        && r.Ok?
        && r.value.id !in old(missions)
        && missions == old(missions)[r.value.id := r.value]
        && r.value.catId == None && !r.value.complete
        && |r.value.targets| == |mission.targets|
        && (forall j :: 0 <= j < |mission.targets| ==>
              r.value.targets[j] == TargetWithId(mission.targets[j], r.value.targets[j].id))
        && DistinctIds(r.value.targets)
    {
      if !ValidMission(mission) {
        return Err(InvalidInput);
      }
      var id := Ids.FreshId(missions.Keys);
      var targets := WithTargetIds(mission.targets);
      var record := MissionRecord(id, None, targets, false);
      missions := missions[id := record];
      return Ok(record);
    }

    /** list_missions: one entry per stored mission: each entry is the mission stored under its id,
        no id is listed twice, and every stored mission is listed. */
    method ListMissions() returns (r: seq<MissionRecord>)
      requires Valid()
      ensures |r| == |missions|
      ensures forall i :: 0 <= i < |r| ==> r[i].id in missions && missions[r[i].id] == r[i]
      ensures forall i, j :: 0 <= i < j < |r| ==> r[i].id != r[j].id
      ensures forall k :: k in missions ==> missions[k] in r
    {
      var ks;
      r, ks := ValuesOf(missions);
      forall k | k in missions ensures missions[k] in r {
        var i :| 0 <= i < |ks| && ks[i] == k;
        assert r[i] == missions[k];
      }
    }

    /** get_mission: the stored mission, or NotFound. */
    method GetMission(missionId: string) returns (r: Result<MissionRecord>)
      ensures missionId in missions ==> r == Ok(missions[missionId])
      ensures missionId !in missions ==> r == Err(NotFound)
    {
      if missionId !in missions {
        return Err(NotFound);
      }
      return Ok(missions[missionId]);
    }

    /** delete_mission: refuses to delete a mission that has a cat (it stays stored); otherwise removes it. */
    method DeleteMission(missionId: string) returns (r: Result<()>)
      requires Valid()
      modifies this
      ensures Valid()
      ensures cats == old(cats)
      ensures missionId !in old(missions) ==> r == Err(NotFound) && missions == old(missions)
      ensures missionId in old(missions) && old(missions)[missionId].catId.Some? ==>
        r == Err(InvalidState) && missions == old(missions)
      ensures missionId in old(missions) && old(missions)[missionId].catId.None? ==>
        r == Ok(()) && missions == old(missions) - {missionId}
    {
      if missionId !in missions {
        return Err(NotFound);
      }
      if missions[missionId].catId.Some? {
        return Err(InvalidState);
      }
      missions := missions - {missionId};
      return Ok(());
    }

    /** update_target: NotFound for an absent mission or target; otherwise the rules of
        ApplyTargetUpdate, whose result, when accepted, replaces the stored mission. */
    method UpdateTarget(missionId: string, targetId: string, update: MissionUpdate) returns (r: Result<MissionRecord>)
      requires Valid()
      modifies this
      ensures Valid()
      ensures cats == old(cats)
      ensures missionId !in old(missions) ==> r == Err(NotFound) && missions == old(missions)
      ensures missionId in old(missions) ==> r == ApplyTargetUpdate(old(missions)[missionId], targetId, update)
      ensures r.Err? ==> missions == old(missions)
      ensures r.Ok? ==> missions == old(missions)[missionId := r.value]
    {
      if missionId !in missions {
        return Err(NotFound);
      }
      var mission := missions[missionId];
      var found := FindTarget(mission.targets, targetId);
      if found.None? {
        return Err(NotFound);
      }
      var i := found.value;
      var target := mission.targets[i];
      if update.notes.Some? {
        if target.complete || mission.complete {
          return Err(InvalidState);
        }
        target := target.(notes := update.notes.value);
      }
      if update.complete.Some? {
        target := target.(complete := update.complete.value);
      }
      var targets := mission.targets[i := target];
      var complete := mission.complete;
      if update.complete.Some? {
        var all := AllComplete(targets);
        if all {
          complete := true;
        }
      }
      var record := mission.(targets := targets, complete := complete);
      missions := missions[missionId := record];
      return Ok(record);
    }

    /** assign_cat_to_mission: NotFound for an absent mission, then for an absent cat; InvalidState when the
        cat already has a mission; otherwise links the mission to the cat and the cat to the mission, and
        changes nothing else (a cat the mission named before keeps its mission_id). */
    method AssignCatToMission(missionId: string, assign: AssignCat) returns (r: Result<MissionRecord>)
      requires Valid()
      modifies this
      ensures Valid()
      ensures missionId !in old(missions) ==> r == Err(NotFound)
      ensures missionId in old(missions) && assign.catId !in old(cats) ==> r == Err(NotFound)
      ensures missionId in old(missions) && assign.catId in old(cats) && old(cats)[assign.catId].missionId.Some? ==>
        r == Err(InvalidState)
      ensures r.Err? ==> cats == old(cats) && missions == old(missions)
      ensures missionId in old(missions) && assign.catId in old(cats) && old(cats)[assign.catId].missionId.None? ==>
        && r == Ok(old(missions)[missionId].(catId := Some(assign.catId)))
        && missions == old(missions)[missionId := r.value]
        && cats == old(cats)[assign.catId := old(cats)[assign.catId].(missionId := Some(missionId))]
    {
      if missionId !in missions {
        return Err(NotFound);
      }
      if assign.catId !in cats {
        return Err(NotFound);
      }
      var cat := cats[assign.catId];
      if cat.missionId.Some? {
        return Err(InvalidState);
      }
      var record := missions[missionId].(catId := Some(assign.catId));
      missions := missions[missionId := record];
      cats := cats[assign.catId := cat.(missionId := Some(missionId))];
      return Ok(record);
    }
  }
}
