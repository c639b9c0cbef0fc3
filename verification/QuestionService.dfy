// The question set row and its versions as the service updates them in place
// (interview_questions.py). Each method does exactly what module Questions says and keeps the
// invariant.
module QuestionService {
  import opened Common
  import opened Questions
  import RoundStatus

  class Service {
    var status: RoundStatus.Status
    var versions: seq<Version>
    var current: Option<Id>
    var ready: bool
    var confirmedBy: Option<Id>
    var keys: map<Key, Request>
    var nextId: Id

    function Contents(): QuestionSet
      reads this
    {
      QuestionSet(status, versions, current, ready, confirmedBy, keys)
    }

    ghost predicate Valid()
      reads this
    {
      Inv(State(Contents(), nextId))
    }

    constructor (roundStatus: RoundStatus.Status, firstId: Id)
      ensures Valid() && State(Contents(), nextId) == Empty(roundStatus, firstId)
    {
      status, versions, current, ready, confirmedBy, keys, nextId := roundStatus, [], None, false, None, map[], firstId;
      new;
      EmptyInv(roundStatus, firstId);
    }

    // A new version becomes current and takes the set back to DRAFT.
    method Append(version: Version)
      modifies this
      ensures Contents() == old(Appended(Contents(), version)) && nextId == old(nextId) + 1
    {
      nextId := nextId + 1;
      versions := versions + [version];
      current := Some(version.id);
      ready := false;
      confirmedBy := None;
    }

    method PersistGenerationResult(task: TaskInput, items: seq<Question>, fold: Fold) returns (reply: Result<Reply, Error>)
      requires Valid()
      modifies this
      ensures Valid() && Outcome(Contents(), nextId, reply) == old(Persist(Contents(), nextId, task, items, fold))
    {
      PersistKeeps(State(Contents(), nextId), task, items, fold);
      var existing := FindByTask(versions, task.taskId);
      if existing.Some? {
        return Ok(VersionReply(existing.value));
      }
      var ok := ValidateOutline(items, task.allowed, fold);
      if !ok {
        return Err(Invalid);
      }
      var version := Version(nextId, MaxNo(versions) + 1, Some(task.taskId), task.jobVersionId, task.resumeVersionId,
                             task.inputHash, task.createdBy, items);
      Append(version);
      return Ok(VersionReply(version));
    }

    method CreateManualVersion(actor: Id, key: string, expected: Id, items: seq<Question>,
                               allowed: Option<set<string>>, fold: Fold)
      returns (reply: Result<Reply, Error>)
      requires Valid()
      modifies this
      ensures Valid() && Outcome(Contents(), nextId, reply) == old(Edit(Contents(), nextId, actor, key, expected, items, allowed, fold))
    {
      EditKeeps(State(Contents(), nextId), actor, key, expected, items, allowed, fold);
      reply := EditChecked(actor, key, expected, items, allowed, fold);
    }

    method EditChecked(actor: Id, key: string, expected: Id, items: seq<Question>, allowed: Option<set<string>>, fold: Fold)
      returns (reply: Result<Reply, Error>)
      modifies this
      ensures Outcome(Contents(), nextId, reply) == old(Edit(Contents(), nextId, actor, key, expected, items, allowed, fold))
    {
      if !Mutable(status) || current.None? {
        return Err(Invalid);
      }
      var base := Find(versions, current.value);
      if base.None? || key == "" {
        return Err(Invalid);
      }
      var k := Key(actor, EditKey, key);
      var request := EditRequest(expected, items);
      if k in keys {
        if keys[k] != request {
          return Err(IdempotencyConflict);
        }
        var replay := FindReplay(expected);
        return if replay.Some? then Ok(VersionReply(replay.value)) else Err(IdempotencyConflict);
      }
      if current.value != expected {
        return Err(OptimisticLock);
      }
      if allowed.None? {
        return Err(Invalid);
      }
      var ok := ValidateOutline(items, allowed.value, fold);
      if !ok {
        return Err(Invalid);
      }
      var version := AppendEdit(actor, k, base.value, request);
      return Ok(VersionReply(version));
    }

    method FindReplay(expected: Id) returns (replay: Option<Version>)
      ensures replay == ReplayedEdit(Contents(), expected)
    {
      replay := None;
      var expectedVersion := Find(versions, expected);
      if expectedVersion.Some? {
        replay := FindByNo(versions, expectedVersion.value.no + 1);
      }
      if replay.None? && current.Some? {
        replay := Find(versions, current.value);
      }
    }

    method AppendEdit(actor: Id, key: Key, base: Version, request: Request) returns (version: Version)
      requires request.EditRequest?
      modifies this
      ensures version == old(Edited(Contents(), nextId, actor, base, request.items))
      ensures Contents() == old(Appended(Contents(), version).(keys := keys[key := request]))
      ensures nextId == old(nextId) + 1
    {
      version := Version(nextId, MaxNo(versions) + 1, None, base.jobVersionId, base.resumeVersionId, base.inputHash, actor,
                         request.items);
      Append(version);
      keys := keys[key := request];
    }

    method ConfirmQuestionSet(actor: Id, key: string, expected: Id) returns (reply: Result<Reply, Error>)
      requires Valid()
      modifies this
      ensures Valid() && Outcome(Contents(), nextId, reply) == old(Confirm(Contents(), nextId, actor, key, expected))
    {
      ConfirmKeeps(State(Contents(), nextId), actor, key, expected);
      if !Mutable(status) || current.None? || key == "" {
        return Err(Invalid);
      }
      var k := Key(actor, ConfirmKey, key);
      var request := ConfirmRequest(expected);
      if k in keys {
        return if keys[k] != request then Err(IdempotencyConflict) else Ok(SetReply(ready, confirmedBy));
      }
      if current.value != expected {
        return Err(OptimisticLock);
      }
      var version := Find(versions, current.value);
      if version.None? || version.value.items == [] {
        return Err(Invalid);
      }
      ready := true;
      confirmedBy := Some(actor);
      keys := keys[k := request];
      return Ok(SetReply(ready, confirmedBy));
    }
  }
}
