/** The target-update rules of update_target (main.py): finding the target, freezing notes on
    completed work, and latching the mission's complete flag. Stated on values, so that the
    rules can be related across several requests. */
module Targets {
  import opened Wrappers
  import opened Models

  /** No two targets of a mission share an id. */
  predicate DistinctIds(ts: seq<TargetRecord>)
  {
    forall i, j :: 0 <= i < j < |ts| ==> ts[i].id != ts[j].id
  }

  /** Every target is complete: the all(...) test of update_target. */
  predicate AllTargetsComplete(ts: seq<TargetRecord>)
  {
    forall j :: 0 <= j < |ts| ==> ts[j].complete
  }

  /** The position of the first target with the given id, as next(...) finds it, or None when there is none. */
  function TargetIndex(ts: seq<TargetRecord>, id: string): (r: Option<nat>)
    ensures r.Some? ==> r.value < |ts| && ts[r.value].id == id
    ensures r.Some? ==> forall j :: 0 <= j < r.value ==> ts[j].id != id
    ensures r.None? <==> forall j :: 0 <= j < |ts| ==> ts[j].id != id
    decreases |ts|
  {
    if |ts| == 0 then None
    else if ts[0].id == id then Some(0)
    else match TargetIndex(ts[1..], id)
      case None => None
      case Some(k) => Some(k + 1)
  }

  /** The linear search of update_target. */
  method FindTarget(ts: seq<TargetRecord>, id: string) returns (r: Option<nat>)
    ensures r == TargetIndex(ts, id)
  {
    var i := 0;
    while i < |ts|
      invariant 0 <= i <= |ts|
      invariant forall j :: 0 <= j < i ==> ts[j].id != id
    {
      if ts[i].id == id {
        return Some(i);
      }
      i := i + 1;
    }
    return None;
  }

  /** The all(...) scan of update_target: true exactly when every target is complete. */
  method AllComplete(ts: seq<TargetRecord>) returns (b: bool)
    ensures b <==> forall j :: 0 <= j < |ts| ==> ts[j].complete
  {
    var i := 0;
    while i < |ts|
      invariant 0 <= i <= |ts|
      invariant forall j :: 0 <= j < i ==> ts[j].complete
    {
      if !ts[i].complete {
        return false;
      }
      i := i + 1;
    }
    return true;
  }

  /** m' is m after an accepted update u of its i-th target: only that target's notes and complete
      flag change, each to the supplied value when one is supplied, and the mission becomes complete
      when it already was or when a complete flag was supplied and every target is now complete. */
  predicate TargetUpdated(m: MissionRecord, i: nat, u: MissionUpdate, m': MissionRecord)
    requires i < |m.targets|
  {
    && m'.id == m.id
    && m'.catId == m.catId
    && |m'.targets| == |m.targets|
    && (forall j :: 0 <= j < |m.targets| ==> m'.targets[j].id == m.targets[j].id)
    && (forall j :: 0 <= j < |m.targets| && j != i ==> m'.targets[j] == m.targets[j])
    && m'.targets[i].name == m.targets[i].name
    && m'.targets[i].country == m.targets[i].country
    && m'.targets[i].notes == (if u.notes.Some? then u.notes.value else m.targets[i].notes)
    && m'.targets[i].complete == (if u.complete.Some? then u.complete.value else m.targets[i].complete)
    && (m'.complete <==> m.complete || (u.complete.Some? && AllTargetsComplete(m'.targets)))
  }

  /** update_target applied to one mission: NotFound when no target has the id; InvalidState when notes
      are supplied while the target or the mission is complete (and then nothing changes); otherwise the
      updated mission. An update carrying neither field leaves the mission as it was. */
  function ApplyTargetUpdate(m: MissionRecord, targetId: string, u: MissionUpdate): (r: Result<MissionRecord>)
    ensures TargetIndex(m.targets, targetId).None? ==> r == Err(NotFound)
    ensures TargetIndex(m.targets, targetId).Some? ==>
      var i := TargetIndex(m.targets, targetId).value;
      if u.notes.Some? && (m.targets[i].complete || m.complete) then r == Err(InvalidState)
      else r.Ok? && TargetUpdated(m, i, u, r.value)
    ensures r.Ok? && m.complete ==> r.value.complete
    ensures r.Ok? && u.notes.None? && u.complete.None? ==> r.value == m
  {
    match TargetIndex(m.targets, targetId)
    case None => Err(NotFound)
    case Some(i) =>
      var t := m.targets[i];
      if u.notes.Some? && (t.complete || m.complete) then Err(InvalidState)
      else
        var withNotes := if u.notes.Some? then t.(notes := u.notes.value) else t;
        if u.complete.Some? then
          var ts := m.targets[i := withNotes.(complete := u.complete.value)];
          Ok(m.(targets := ts, complete := if AllTargetsComplete(ts) then true else m.complete))
        else
          Ok(m.(targets := m.targets[i := withNotes]))
  }

  /** One request of a sequence: a refused update leaves the mission as it was. */
  function ApplyStep(m: MissionRecord, step: (string, MissionUpdate)): MissionRecord
  {
    match ApplyTargetUpdate(m, step.0, step.1)
    case Ok(m') => m'
    case Err(_) => m
  }

  /** The mission after a sequence of update_target requests (target id, body) on it, in order. */
  function ApplyUpdates(m: MissionRecord, steps: seq<(string, MissionUpdate)>): MissionRecord
    decreases |steps|
  {
    if |steps| == 0 then m else ApplyStep(ApplyUpdates(m, steps[..|steps| - 1]), steps[|steps| - 1])
  }

  /** Once complete, a mission stays complete whatever target updates follow. */
  lemma {:induction false} CompleteIsLatched(m: MissionRecord, steps: seq<(string, MissionUpdate)>)
    requires m.complete
    ensures ApplyUpdates(m, steps).complete
  {
    if |steps| > 0 {
      CompleteIsLatched(m, steps[..|steps| - 1]);
    }
  }

  /** Target updates never change a mission's id, its cat, its number of targets or their ids. */
  lemma {:induction false} UpdatesKeepShape(m: MissionRecord, steps: seq<(string, MissionUpdate)>)
    ensures var m' := ApplyUpdates(m, steps);
      && m'.id == m.id && m'.catId == m.catId && |m'.targets| == |m.targets|
      && forall j :: 0 <= j < |m.targets| ==> m'.targets[j].id == m.targets[j].id
  {
    if |steps| > 0 {
      UpdatesKeepShape(m, steps[..|steps| - 1]);
    }
  }

  /** The requests that set the complete flag of each target in turn, in list order. */
  function CompleteEachTarget(ts: seq<TargetRecord>): (steps: seq<(string, MissionUpdate)>)
    ensures |steps| == |ts|
    ensures forall j :: 0 <= j < |ts| ==> steps[j] == (ts[j].id, MissionUpdate(None, Some(true)))
  {
    seq(|ts|, j requires 0 <= j < |ts| => (ts[j].id, MissionUpdate(None, Some(true))))
  }

  /** After the first k of those requests, the first k targets are complete and the ids are intact;
      once all of them (at least one) have been sent, the mission is complete. */
  lemma {:induction false} CompletingPrefix(m: MissionRecord, k: nat)
    requires DistinctIds(m.targets)
    requires k <= |m.targets|
    ensures var m' := ApplyUpdates(m, CompleteEachTarget(m.targets)[..k]);
      && |m'.targets| == |m.targets|
      && (forall j :: 0 <= j < |m.targets| ==> m'.targets[j].id == m.targets[j].id)
      && (forall j :: 0 <= j < k ==> m'.targets[j].complete)
      && (0 < k == |m.targets| ==> m'.complete)
  {
    var steps := CompleteEachTarget(m.targets);
    if k > 0 {
      CompletingPrefix(m, k - 1);
      assert steps[..k][..k - 1] == steps[..k - 1];
      var prev := ApplyUpdates(m, steps[..k - 1]);
      var id := m.targets[k - 1].id;
      assert steps[..k][k - 1] == (id, MissionUpdate(None, Some(true)));
      assert prev.targets[k - 1].id == id;
      var found := TargetIndex(prev.targets, id);
      assert found == Some(k - 1) by {
        assert found.Some?;
        assert found.value <= k - 1;
        assert prev.targets[found.value].id == m.targets[found.value].id;
      }
    }
  }

  /** Marking every target of a mission complete, one request per target, makes the mission complete. */
  lemma CompletingEveryTargetCompletesMission(m: MissionRecord)
    requires DistinctIds(m.targets)
    requires 1 <= |m.targets|
    ensures var m' := ApplyUpdates(m, CompleteEachTarget(m.targets));
      m'.complete && AllTargetsComplete(m'.targets)
  {
    var steps := CompleteEachTarget(m.targets);
    CompletingPrefix(m, |m.targets|);
    assert steps[..|m.targets|] == steps;
  }
}
