/** The request bodies and stored records of models.py, with their field constraints and defaults. */
module Models {
  import opened Wrappers

  /** Body of a cat creation request (SpyCat). The salary is a float in Python; only its sign is ever inspected. */
  datatype SpyCat = SpyCat(name: string, yearsOfExperience: int, breed: string, salary: real)

  /** The field constraints of SpyCat: years_of_experience >= 0 and salary > 0. */
  predicate ValidSpyCat(c: SpyCat)
  {
    c.yearsOfExperience >= 0 && c.salary > 0.0
  }

  /** Body of a cat update request (SpyCatUpdate): the salary is the only field. */
  datatype SpyCatUpdate = SpyCatUpdate(salary: real)

  /** The field constraint of SpyCatUpdate: salary > 0. */
  predicate ValidSpyCatUpdate(u: SpyCatUpdate)
  {
    u.salary > 0.0
  }

  /** A target as sent in a mission creation body; None stands for a field the client omitted. */
  datatype Target = Target(name: string, country: string, notes: Option<string>, complete: Option<bool>)

  /** Body of a mission creation request (Mission). */
  datatype Mission = Mission(targets: seq<Target>)

  /** The field constraint of Mission: at least one and at most three targets. */
  predicate ValidMission(m: Mission)
  {
    1 <= |m.targets| <= 3
  }

  /** Body of a target update request (MissionUpdate): each field may be omitted (None). */
  datatype MissionUpdate = MissionUpdate(notes: Option<string>, complete: Option<bool>)

  /** Body of an assignment request (AssignCat). */
  datatype AssignCat = AssignCat(catId: string)

  /** A record of cats_db: the SpyCat fields, the generated id and the mission back-reference. */
  datatype CatRecord = CatRecord(
    id: string, name: string, yearsOfExperience: int, breed: string, salary: real, missionId: Option<string>)

  /** A stored target (TargetResponse): the Target fields with their defaults applied, and an id. */
  datatype TargetRecord = TargetRecord(id: string, name: string, country: string, notes: string, complete: bool)

  /** A record of missions_db (MissionResponse): cat_id is optional and null unless a cat is assigned. */
  datatype MissionRecord = MissionRecord(id: string, catId: Option<string>, targets: seq<TargetRecord>, complete: bool)

  /** The stored form of a target body under a generated id: an omitted notes field becomes "",
      an omitted complete field becomes false, and supplied fields are kept. */
  function TargetWithId(t: Target, id: string): (r: TargetRecord)
    ensures r.id == id && r.name == t.name && r.country == t.country
    ensures t.notes.None? ==> r.notes == ""
    ensures t.notes.Some? ==> r.notes == t.notes.value
    ensures t.complete.None? ==> !r.complete
    ensures t.complete.Some? ==> r.complete == t.complete.value
  {
    TargetRecord(
      id, t.name, t.country,
      match t.notes case Some(n) => n case None => "",
      match t.complete case Some(c) => c case None => false)
  }

  /** A target sent with every field explicit is stored with exactly those fields. */
  lemma TargetFieldsRoundTrip(r: TargetRecord)
    ensures TargetWithId(Target(r.name, r.country, Some(r.notes), Some(r.complete)), r.id) == r
  {
  }
}
