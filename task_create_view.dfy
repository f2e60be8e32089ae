/**
  The task-creation modal as a state machine: the draft, the `isSaving` flag
  and the inline error, updated by the input, dependency and save handlers.
  The create request's outcome is a parameter; the requests sent and the calls
  made on the parent's callbacks are recorded in the object.
 */
module TaskCreateView {
  import opened Js
  import opened TaskDraft

  /** How the create request ended: the created task as the server returned
      it, or a failure. */
  datatype CreateOutcome = Created(task: Value) | Failed(failure: CreateFailure)

  /** A POST of the draft to the create endpoint. */
  datatype CreateRequest = CreateRequest(path: string, body: Draft)

  /** A call the modal makes on its parent: `onTaskCreated(task)` or `onClose()`. */
  datatype Callback = TaskCreated(task: Value) | Closed

  function CreatePath(profileId: string): string
  {
    "/api/tasks/" + profileId + "/create"
  }

  /** `deps.indexOf(id)`: the first position holding `id`, or -1. */
  method IndexOf(deps: seq<TaskId>, id: TaskId) returns (index: int)
    ensures index == -1 <==> id !in deps
    ensures index != -1 ==>
      0 <= index < |deps| && deps[index] == id &&
      (forall j :: 0 <= j < index ==> deps[j] != id) &&
      index == FirstIndex(deps, id)
  {
    index := 0;
    while index < |deps|
      invariant 0 <= index <= |deps|
      invariant forall j :: 0 <= j < index ==> deps[j] != id
    {
      if deps[index] == id {
        assert FirstIndex(deps, id) >= index;
        return;
      }
      index := index + 1;
    }
    index := -1;
  }

  class TaskCreateModal {
    var draft: Draft
    var isSaving: bool
    var error: Option<string>
    /** Every create request sent, oldest first. */
    var requests: seq<CreateRequest>
    /** Every call made on the parent's callbacks, oldest first. */
    var callbacks: seq<Callback>
    const profileId: string
    /** Whether the parent supplied `onTaskCreated`. */
    const notifiesCreation: bool

    /** The dependency list is duplicate-free: the toggle is the only way in. */
    predicate Valid()
      reads this
    {
      NoDuplicates(draft.dependencies)
    }

    constructor (profileId: string, notifiesCreation: bool)
      ensures Valid()
      ensures draft == EmptyDraft && !isSaving && error == None
      ensures requests == [] && callbacks == []
      ensures this.profileId == profileId && this.notifiesCreation == notifiesCreation
    {
      draft := EmptyDraft;
      isSaving := false;
      error := None;
      requests := [];
      callbacks := [];
      this.profileId := profileId;
      this.notifiesCreation := notifiesCreation;
    }

    /** `handleInputChange(field, value)` */
    method HandleInputChange(f: TextField, v: string)
      requires Valid()
      modifies this
      ensures Valid()
      ensures draft == WithField(old(draft), f, v)
      ensures isSaving == old(isSaving) && error == old(error)
      ensures requests == old(requests) && callbacks == old(callbacks)
    {
      draft := WithField(draft, f, v);
    }

    /** `handleDependencyToggle(taskId)`: copy the list, then `splice` the
        first occurrence out or `push` the id. */
    method HandleDependencyToggle(id: TaskId)
      requires Valid()
      modifies this
      ensures Valid()
      ensures draft == old(draft).(dependencies := Toggle(old(draft.dependencies), id))
      ensures isSaving == old(isSaving) && error == old(error)
      ensures requests == old(requests) && callbacks == old(callbacks)
    {
      var dependencies := draft.dependencies;
      var index := IndexOf(dependencies, id);
      if index > -1 {
        dependencies := dependencies[..index] + dependencies[index + 1..];
      } else {
        dependencies := dependencies + [id];
      }
      ToggleAppendsOrSplices(draft.dependencies, id);
      TogglePreservesNoDuplicates(draft.dependencies, id);
      draft := draft.(dependencies := dependencies);
    }

    /** `handleSave()`: validate, then POST the draft. A created task is passed
        to `onTaskCreated` (when supplied) and the modal closes; a failure is
        shown inline. The draft is never changed and `isSaving` always ends
        false. */
    method HandleSave(outcome: CreateOutcome)
      requires Valid()
      modifies this
      ensures Valid()
      ensures !isSaving
      ensures draft == old(draft)
      ensures Validate(old(draft)).Some? ==>
        error == Validate(old(draft)) &&
        requests == old(requests) && callbacks == old(callbacks)
      ensures Validate(old(draft)).None? ==>
        requests == old(requests) + [CreateRequest(CreatePath(profileId), old(draft))]
      ensures Validate(old(draft)).None? && outcome.Created? ==>
        error == None &&
        callbacks == old(callbacks)
          + (if notifiesCreation then [TaskCreated(outcome.task)] else [])
          + [Closed]
      ensures Validate(old(draft)).None? && outcome.Failed? ==>
        error == Some(FailureMessage(outcome.failure)) && callbacks == old(callbacks)
    {
      isSaving := true;
      error := None;

      var invalid := Validate(draft);
      if invalid.Some? {
        error := invalid;
        isSaving := false;
        return;
      }

      requests := requests + [CreateRequest(CreatePath(profileId), draft)];
      match outcome {
        case Created(task) =>
          if notifiesCreation {
            callbacks := callbacks + [TaskCreated(task)];
          }
          callbacks := callbacks + [Closed];
        case Failed(failure) =>
          error := Some(FailureMessage(failure));
      }
      isSaving := false;
    }
  }

  /** Saving with an empty name and the description "do X" is blocked with the
      name error, whatever the server would have answered: no request is
      sent and the modal stays open. */
  method BlankNameIsBlocked(outcome: CreateOutcome) returns (modal: TaskCreateModal)
    ensures modal.error == Some(NameRequired)
    ensures modal.requests == [] && modal.callbacks == []
    ensures !modal.isSaving && modal.draft.description == "do X"
  {
    modal := new TaskCreateModal("profile", true);
    modal.HandleInputChange(Description, "do X");
    modal.HandleSave(outcome);
  }

  /** A create request answered with a non-ok status and the text
      "duplicate name" keeps the modal open with the draft intact and shows
      that text after the fixed prefix. */
  method DuplicateNameIsReported(d: Draft) returns (modal: TaskCreateModal)
    requires !IsBlank(d.name) && !IsBlank(d.description) && NoDuplicates(d.dependencies)
    ensures modal.error == Some(FailurePrefix + "duplicate name")
    ensures modal.draft == d && !modal.isSaving && modal.callbacks == []
  {
    modal := new TaskCreateModal("profile", true);
    modal.HandleInputChange(Name, d.name);
    modal.HandleInputChange(Description, d.description);
    modal.HandleInputChange(Notes, d.notes);
    modal.HandleInputChange(ImplementationGuide, d.implementationGuide);
    modal.HandleInputChange(VerificationCriteria, d.verificationCriteria);
    modal.HandleInputChange(Agent, d.agent);
    var i := 0;
    while i < |d.dependencies|
      invariant 0 <= i <= |d.dependencies|
      invariant modal.Valid() && !modal.isSaving && modal.callbacks == []
      invariant modal.draft == d.(dependencies := d.dependencies[..i])
    {
      assert d.dependencies[i] !in d.dependencies[..i];
      ToggleAppendsOrSplices(modal.draft.dependencies, d.dependencies[i]);
      modal.HandleDependencyToggle(d.dependencies[i]);
      assert d.dependencies[..i + 1] == d.dependencies[..i] + [d.dependencies[i]];
      i := i + 1;
    }
    assert d.dependencies[..i] == d.dependencies;
    assert Validate(modal.draft) == None;
    modal.HandleSave(Failed(Rejected("duplicate name")));
  }
}
