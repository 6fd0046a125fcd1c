# Spy Cat Agency store — a Dafny model

This project models the core of the Spy Cat Agency backend: the two in-memory tables `cats_db` and
`missions_db`, keyed by generated ids, and the request handlers of `main.py` that read and change them
under the agency's business rules:

- a cat is created only with a breed from the valid-breed list;
- a cat update changes its salary and nothing else;
- a mission cannot be deleted while a cat is assigned to it;
- a target's notes are frozen once the target or its mission is complete;
- a mission's `complete` flag is latched to true when a complete-flag update leaves every target complete;
- a cat that already has a mission cannot be assigned to another one.

Layout, one module per file:

- `wrappers.dfy` (`Wrappers`): `Option`, `Result` and the three error kinds `NotFound`, `InvalidState` and
  `InvalidInput`.
- `models.dfy` (`Models`): the request bodies of `models.py` (`SpyCat`, `SpyCatUpdate`, `Target`, `Mission`,
  `MissionUpdate`, `AssignCat`) and their field constraints as predicates. `ValidSpyCat` needs
  `years_of_experience >= 0` and `salary > 0`. `ValidSpyCatUpdate` needs `salary > 0`. `ValidMission` needs
  one to three targets. The file also holds the stored records (`CatRecord`, `TargetRecord`, `MissionRecord`)
  and the target defaults (`TargetWithId`).
- `helper.dfy` (`Helper`): `validate_breed`.
- `ids.dfy` (`Ids`): the id generator. It stands for `uuid.uuid4()`, and its one promise is an id that is
  not already in use.
- `targets.dfy` (`Targets`): the rules of `update_target` as functions on a mission value. It has the
  search for the target, the all-complete scan, and lemmas over whole sequences of target updates.
- `store.dfy` (`Handlers`): class `Store` with fields `cats` and `missions` (maps from id to record), and
  one method per handler. The get, create, update and assign handlers return `Ok(record)` or `Err(kind)`.
  The delete handlers return `Ok(())` or `Err(kind)`. The list handlers return a plain sequence of records.
  Every state-changing handler states its whole new state.
  The object invariant `Valid()` says every record is stored under its own id, and every mission has one
  to three targets with distinct ids.
- `scenarios.dfy` (`Scenarios`): request sequences that show what a client can rely on.

Request bodies that break their field constraints are refused by the web framework before a handler
runs. Each handler method therefore checks its body's validity predicate first and answers
`InvalidInput`. The framework sends 422 in that case, and an unknown breed gets 400; both are
`InvalidInput` here.

A reader might expect the two tables to keep cat and mission references mirrored, and `complete` to be
recomputed on every target update. The code does neither, and the model follows the code:

- `mission.complete` is not recomputed on every update. It is set to true only by an update that carries
  a complete flag and leaves every target complete, and it is never set back to false (main.py:121-126).
  A mission created with targets that are all marked complete starts with `complete = false`.
- The cat's `mission_id` and the mission's `cat_id` are not kept mirrored. `delete_cat` leaves the
  mission's `cat_id` naming the deleted cat, and that mission can then never be deleted. Assigning a second
  cat to a mission leaves the first cat's `mission_id` in place. `Scenarios` shows both.

## Model

| member | source | states |
|---|---|---|
| `Models.TargetWithId` | models.py:17-21 | a stored target has the given id, the body's name and country, notes `""` when omitted and the supplied notes otherwise, and complete `false` when omitted and the supplied flag otherwise |
| `Models.TargetFieldsRoundTrip` | models.py:17-23 | a target sent with every field explicit is stored with exactly those fields |
| `Helper.ValidateBreed` | helper.py:20-25 | the check fails, with `InvalidInput`, exactly when the breed is not in the list; it succeeds with no effect otherwise, and it has no way to alter the list |
| `Helper.EmptyListRejectsEveryBreed` | helper.py:21 | with an empty valid-breed list every breed is rejected |
| `Ids.FreshId` | main.py:33 | the generated id is not one of the ids already in use |
| `Targets.TargetIndex` | main.py:108 | the first position whose target has the id, or `None` exactly when no target has it |
| `Targets.FindTarget` | main.py:108-111 | the linear search returns that first matching position, or `None` when no target matches |
| `Targets.AllComplete` | main.py:125 | the scan is true exactly when every target of the list is complete |
| `Targets.ApplyTargetUpdate` | main.py:108-128 | `NotFound` for an unknown target; `InvalidState` when notes are supplied while the target or its mission is complete; otherwise only that target's notes and complete flag change, each to the supplied value, every other target and the mission's id and cat are kept, and the mission is complete exactly when it already was or a complete flag was supplied and every target is now complete; an update with neither field changes nothing |
| `Targets.CompleteIsLatched` | main.py:121-126 | a complete mission stays complete after any sequence of target updates |
| `Targets.UpdatesKeepShape` | main.py:103-128 | any sequence of target updates keeps the mission's id, its cat, its number of targets and their ids |
| `Targets.CompletingPrefix` | main.py:121-126 | after completion updates for the first k targets in turn, those k targets are complete, and so is the mission once all of them have been sent |
| `Targets.CompletingEveryTargetCompletesMission` | main.py:121-126 | marking every target complete, one update per target, leaves every target and the mission complete |
| `Handlers.ValuesOf` | main.py:39 | the listing has exactly one entry per key of the table, which is the value stored under that key; no key is used twice and every key is used |
| `Handlers.WithTargetIds` | main.py:65-68 | the stored targets keep the body's order and count, each with its defaults applied and its own id, no two ids alike |
| `Handlers.Store.constructor` | main.py:6 | both tables start empty and the store invariant holds |
| `Handlers.Store.CreateCat` | main.py:30-35 | success exactly when the body is valid and its breed is listed; on failure `InvalidInput` and no table changes; on success exactly one new key, not present before, holding the body's name, experience, breed and salary with that id and no mission; no other cat and no mission changes |
| `Handlers.Store.ListCats` | main.py:37-39 | one entry per stored cat: as many entries as cats, each the cat stored under its id, no id twice, every stored cat present |
| `Handlers.Store.GetCat` | main.py:41-45 | the stored cat, or `NotFound` when the id is absent |
| `Handlers.Store.UpdateCat` | main.py:47-52 | `InvalidInput` for a salary that is not positive; `NotFound` for an absent id; otherwise the named cat's salary alone changes; no other cat and no mission changes; on failure nothing changes |
| `Handlers.Store.DeleteCat` | main.py:54-59 | `NotFound` for an absent id; otherwise exactly that key is removed whatever its mission; missions are never touched |
| `Handlers.Store.CreateMission` | main.py:62-75 | `InvalidInput` unless there are one to three targets; otherwise exactly one new key holding a mission with that id, no cat, not complete, and the body's targets in order with distinct ids and defaults applied; cats are untouched |
| `Handlers.Store.ListMissions` | main.py:77-79 | one entry per stored mission: as many entries as missions, each the mission stored under its id, no id twice, every stored mission present |
| `Handlers.Store.GetMission` | main.py:81-85 | the stored mission, or `NotFound` when the id is absent |
| `Handlers.Store.DeleteMission` | main.py:87-100 | `NotFound` for an absent id; `InvalidState` while the mission has a cat, and the mission stays stored; otherwise exactly that key is removed; cats are untouched |
| `Handlers.Store.UpdateTarget` | main.py:102-128 | `NotFound` for an absent mission; otherwise the result of `ApplyTargetUpdate` on the stored mission, which replaces it when accepted; on an error nothing changes; cats are untouched |
| `Handlers.Store.AssignCatToMission` | main.py:130-148 | the mission is looked up first, then the cat, `NotFound` for whichever is absent; `InvalidState` when the cat already has a mission; every error changes nothing; otherwise the mission's `cat_id` becomes the cat and the cat's `mission_id` becomes the mission, and nothing else changes, even when the mission had another cat |
| `Scenarios.CatRoundTrip` | main.py:30-52 | a created cat reads back with the fields sent, and after a salary update it reads back with only the salary changed |
| `Scenarios.CompleteBothTargets` | main.py:62-128 | a new mission with two targets has nothing complete; completing one keeps the mission incomplete; completing both completes it |
| `Scenarios.ReopenedTargetKeepsMissionComplete` | main.py:113-126 | setting a target of a complete mission back to incomplete keeps the mission complete, and notes on that target are then refused |
| `Scenarios.AssignedCatAndMission` | main.py:87-148 | a cat already on a mission cannot be assigned to a second one, which stays unassigned; an assigned mission cannot be deleted and stays stored |
| `Scenarios.ReassignmentOrphansFirstCat` | main.py:130-148 | assigning a second cat to a mission is accepted, and the first cat still names the mission while the mission names the other cat |
| `Scenarios.DeletedCatStillBlocksMission` | main.py:54-100 | deleting an assigned cat is accepted; the mission still names the cat and can no longer be deleted |

## Left out

- Fetching the breed list (`fetch_breeds`, helper.py:5-16) and the lazy re-fetch of `get_breeds` (main.py:150-157) are network I/O. The valid-breed list is a parameter of `CreateCat`.
- The web framework wiring, the CORS middleware, the startup and shutdown hooks and the server entry point (main.py:10-27, 159-161) are plumbing outside the store.
- `uuid.uuid4()` randomness is replaced by `Ids.FreshId`, whose only contract is an id not already in use. Target ids are fresh among the targets of their own mission. Random uuids are distinct from all other ids only with overwhelming probability, and the model does not claim more.
- Response-model filtering is serialisation done by the framework. For example, the cat responses omit `mission_id`. Handlers return the full stored record.
- Salary is a Python float. It is modelled as a `real`, because the code only checks that it is positive.
- `database.py` is not part of this model. Both tables start empty, as the `Store` constructor shows.
- The handlers are async, and the tables are shared without locks. Each handler is modelled as one atomic, sequential method.
- Handlers.Store.ListCats: does not state the insertion order that Python dictionaries keep; the order is left unspecified.
- Handlers.Store.ListMissions: does not state the insertion order either, for the same reason.
- Handlers.ValuesOf: lists the values in an unspecified key order rather than insertion order.
- A handler returns the stored dictionary object itself, so a caller could alias it. The model returns record values, so there is no aliasing.
- The distinction between status 422 (schema) and 400 (breed) for invalid input is not modelled; both are `InvalidInput`.
