/**
  The value-level logic of the task-creation modal: the draft record and its
  single-field update, the dependency toggle (remove the first occurrence or
  append), required-field validation, the failure message, the agent options
  offered by the agent selector, and the dependency checkboxes.
 */
module TaskDraft {
  import opened Js

  type TaskId = string

  /** The `newTask` state of the modal. */
  datatype Draft = Draft(
    name: string,
    description: string,
    notes: string,
    implementationGuide: string,
    verificationCriteria: string,
    agent: string,
    dependencies: seq<TaskId>)

  /** The draft the modal opens with. */
  const EmptyDraft := Draft("", "", "", "", "", "", [])

  /** The fields `handleInputChange` is called with. */
  datatype TextField = Name | Description | Notes | ImplementationGuide | VerificationCriteria | Agent

  function DraftField(d: Draft, f: TextField): string
  {
    match f
    case Name => d.name
    case Description => d.description
    case Notes => d.notes
    case ImplementationGuide => d.implementationGuide
    case VerificationCriteria => d.verificationCriteria
    case Agent => d.agent
  }

  /** `{ ...prev, [field]: value }`: the named field takes the new value; every
      other field, the dependency list included, keeps its old one. */
  function WithField(d: Draft, f: TextField, v: string): (r: Draft)
    ensures DraftField(r, f) == v
    ensures forall g :: g != f ==> DraftField(r, g) == DraftField(d, g)
    ensures r.dependencies == d.dependencies
  {
    match f
    case Name => d.(name := v)
    case Description => d.(description := v)
    case Notes => d.(notes := v)
    case ImplementationGuide => d.(implementationGuide := v)
    case VerificationCriteria => d.(verificationCriteria := v)
    case Agent => d.(agent := v)
  }

  // ---------------------------------------------------------------------------
  // Dependency toggle

  predicate NoDuplicates(s: seq<TaskId>)
  {
    forall i, j :: 0 <= i < j < |s| ==> s[i] != s[j]
  }

  /** The position `indexOf` reports for an element that is present. */
  function FirstIndex(s: seq<TaskId>, x: TaskId): (i: nat)
    requires x in s
    ensures i < |s| && s[i] == x
    ensures forall j :: 0 <= j < i ==> s[j] != x
  {
    if s[0] == x then 0 else 1 + FirstIndex(s[1..], x)
  }

  /** Removal of the first occurrence of `x`, element by element. */
  function RemoveFirst(s: seq<TaskId>, x: TaskId): seq<TaskId>
  {
    if s == [] then []
    else if s[0] == x then s[1..]
    else [s[0]] + RemoveFirst(s[1..], x)
  }

  /** The dependency list after a checkbox for `id` is clicked. */
  function Toggle(deps: seq<TaskId>, id: TaskId): seq<TaskId>
  {
    if id in deps then RemoveFirst(deps, id) else deps + [id]
  }

  /** Removing the first occurrence is the same as `splice(indexOf(x), 1)`:
      the elements before and after it keep their order. */
  lemma {:induction false} RemoveFirstIsSplice(s: seq<TaskId>, x: TaskId)
    requires x in s
    ensures RemoveFirst(s, x) == s[..FirstIndex(s, x)] + s[FirstIndex(s, x) + 1..]
  {
    if s[0] != x {
      var t := s[1..];
      RemoveFirstIsSplice(t, x);
      var i := FirstIndex(t, x);
      assert s[..i + 1] == [s[0]] + t[..i];
      assert s[i + 2..] == t[i + 1..];
    }
  }

  /** Removing the first occurrence takes exactly one copy of `x` out. */
  lemma {:induction false} RemoveFirstMultiset(s: seq<TaskId>, x: TaskId)
    requires x in s
    ensures multiset(RemoveFirst(s, x)) == multiset(s) - multiset{x}
  {
    assert s == [s[0]] + s[1..];
    if s[0] != x {
      RemoveFirstMultiset(s[1..], x);
    }
  }

  /** An absent id is appended at the end with every existing entry in place;
      a present id loses exactly its first occurrence, the rest keeping their
      relative order. */
  lemma ToggleAppendsOrSplices(deps: seq<TaskId>, id: TaskId)
    ensures id !in deps ==> Toggle(deps, id) == deps + [id]
    ensures id in deps ==>
      Toggle(deps, id) == deps[..FirstIndex(deps, id)] + deps[FirstIndex(deps, id) + 1..]
  {
    if id in deps {
      RemoveFirstIsSplice(deps, id);
    }
  }

  /** As multisets, a toggle removes one copy of a present id or adds one copy
      of an absent one. */
  lemma ToggleMultiset(deps: seq<TaskId>, id: TaskId)
    ensures multiset(Toggle(deps, id)) ==
      if id in deps then multiset(deps) - multiset{id} else multiset(deps) + multiset{id}
  {
    if id in deps {
      RemoveFirstMultiset(deps, id);
    }
  }

  /** Toggling `id` never changes whether another id is in the list. */
  lemma ToggleKeepsOthers(deps: seq<TaskId>, id: TaskId, x: TaskId)
    requires x != id
    ensures x in Toggle(deps, id) <==> x in deps
  {
    ToggleMultiset(deps, id);
    assert x in Toggle(deps, id) <==> x in multiset(Toggle(deps, id));
  }

  /** On a duplicate-free list a toggle flips the membership of `id`. */
  lemma ToggleFlipsOwn(deps: seq<TaskId>, id: TaskId)
    requires NoDuplicates(deps)
    ensures id in Toggle(deps, id) <==> id !in deps
  {
    if id in deps {
      var i := FirstIndex(deps, id);
      RemoveFirstIsSplice(deps, id);
      var r := Toggle(deps, id);
      forall k | 0 <= k < |r| ensures r[k] != id {
        if k < i {
          assert r[k] == deps[k];
        } else {
          assert r[k] == deps[k + 1];
        }
      }
    }
  }

  /** A duplicate-free list stays duplicate-free after any toggle. */
  lemma TogglePreservesNoDuplicates(deps: seq<TaskId>, id: TaskId)
    requires NoDuplicates(deps)
    ensures NoDuplicates(Toggle(deps, id))
  {
    var r := Toggle(deps, id);
    if id in deps {
      var i := FirstIndex(deps, id);
      RemoveFirstIsSplice(deps, id);
      forall a, b | 0 <= a < b < |r| ensures r[a] != r[b] {
        var a' := if a < i then a else a + 1;
        var b' := if b < i then b else b + 1;
        assert r[a] == deps[a'] && r[b] == deps[b'];
      }
    } else {
      forall a, b | 0 <= a < b < |r| ensures r[a] != r[b] {
        if b == |deps| {
          assert r[a] == deps[a];
        }
      }
    }
  }

  /** Starting from a list without `id`, toggling it twice gives back the
      original list. */
  lemma ToggleTwiceRestores(deps: seq<TaskId>, id: TaskId)
    requires id !in deps
    ensures Toggle(Toggle(deps, id), id) == deps
  {
    var once := deps + [id];
    assert FirstIndex(once, id) == |deps|;
    RemoveFirstIsSplice(once, id);
    assert once[..|deps|] == deps;
  }

  /** On a duplicate-free list, toggling twice restores the contents (a present
      id comes back at the end, so only the order may differ). */
  lemma ToggleTwiceSameContents(deps: seq<TaskId>, id: TaskId)
    requires NoDuplicates(deps)
    ensures multiset(Toggle(Toggle(deps, id), id)) == multiset(deps)
    ensures id in deps ==> Toggle(Toggle(deps, id), id) == RemoveFirst(deps, id) + [id]
  {
    if id in deps {
      ToggleMultiset(deps, id);
      ToggleFlipsOwn(deps, id);
      ToggleMultiset(Toggle(deps, id), id);
    } else {
      ToggleTwiceRestores(deps, id);
    }
  }

  // ---------------------------------------------------------------------------
  // Dependency checkboxes

  /** An entry of `allTasks`. */
  datatype TaskSummary = TaskSummary(id: TaskId, name: string)

  datatype Checkbox = Checkbox(id: TaskId, text: string, checked: bool)

  /** The dependency area: a placeholder message when there are no candidate
      tasks, otherwise one checkbox per candidate. */
  datatype DependencyPicker = Placeholder | Checkboxes(boxes: seq<Checkbox>)

  function Picker(allTasks: Option<seq<TaskSummary>>, deps: seq<TaskId>): (r: DependencyPicker)
    ensures r.Placeholder? <==> allTasks.None? || |allTasks.value| == 0
    ensures r.Checkboxes? ==>
      |r.boxes| == |allTasks.value| &&
      forall i :: 0 <= i < |r.boxes| ==>
        r.boxes[i].id == allTasks.value[i].id &&
        r.boxes[i].text == allTasks.value[i].name &&
        (r.boxes[i].checked <==> allTasks.value[i].id in deps)
  {
    if allTasks.None? || |allTasks.value| == 0 then Placeholder
    else
      var tasks := allTasks.value;
      Checkboxes(seq(|tasks|, i requires 0 <= i < |tasks| =>
        Checkbox(tasks[i].id, tasks[i].name, tasks[i].id in deps)))
  }

  /** On a duplicate-free list, clicking the checkbox for `id` flips every box
      that carries `id` and leaves every other box as it was. */
  lemma ToggleFlipsOnlyItsCheckbox(tasks: seq<TaskSummary>, deps: seq<TaskId>, id: TaskId, i: nat)
    requires NoDuplicates(deps)
    requires i < |tasks|
    ensures
      var before := Picker(Some(tasks), deps);
      var after := Picker(Some(tasks), Toggle(deps, id));
      before.Checkboxes? && after.Checkboxes? &&
      (tasks[i].id == id ==> after.boxes[i].checked == !before.boxes[i].checked) &&
      (tasks[i].id != id ==> after.boxes[i].checked == before.boxes[i].checked)
  {
    if tasks[i].id == id {
      ToggleFlipsOwn(deps, id);
    } else {
      ToggleKeepsOthers(deps, id, tasks[i].id);
    }
  }

  // ---------------------------------------------------------------------------
  // Validation and the failure message

  const NameRequired := "Task name is required"
  const DescriptionRequired := "Task description is required"

  /** The checks `handleSave` makes before any request: the name first, then
      the description, each after trimming; the first failure is reported. */
  function Validate(d: Draft): (r: Option<string>)
    ensures r == Some(NameRequired) <==> IsBlank(d.name)
    ensures r == Some(DescriptionRequired) <==> !IsBlank(d.name) && IsBlank(d.description)
    ensures r == None <==> !IsBlank(d.name) && !IsBlank(d.description)
  {
    TrimEmptyIffBlank(d.name);
    TrimEmptyIffBlank(d.description);
    if Trim(d.name) == "" then Some(NameRequired)
    else if Trim(d.description) == "" then Some(DescriptionRequired)
    else None
  }

  /** Why a create request that passed validation failed: a non-ok response
      with its body text, or an exception with its message (a transport
      failure or an unreadable response). */
  datatype CreateFailure = Rejected(responseText: string) | Thrown(message: string)

  const FailurePrefix := "Failed to create task: "
  const GenericFailure := "Failed to create task"

  /** The message of the error the catch block sees: a non-ok response throws
      `new Error(errorText || 'Failed to create task')`. */
  function ErrorMessage(f: CreateFailure): string
  {
    match f
    case Rejected(text) => if text == "" then GenericFailure else text
    case Thrown(message) => message
  }

  /** The inline error after a failed create: the fixed prefix, then the
      server's text, or the generic message when that text is empty. */
  function FailureMessage(f: CreateFailure): (r: string)
    ensures |r| >= |FailurePrefix| && r[..|FailurePrefix|] == FailurePrefix
    ensures f.Rejected? && f.responseText != "" ==> r[|FailurePrefix|..] == f.responseText
    ensures f.Rejected? && f.responseText == "" ==> r[|FailurePrefix|..] == GenericFailure
    ensures f.Rejected? ==> |r| > |FailurePrefix|
    ensures f.Thrown? ==> r[|FailurePrefix|..] == f.message
  {
    FailurePrefix + ErrorMessage(f)
  }

  // ---------------------------------------------------------------------------
  // Agent options

  /** An entry of the combined agent list; `description` is absent or null
      when None. */
  datatype AgentInfo = AgentInfo(name: string, description: Option<string>)

  /** One `<option>` of the agent selector. */
  datatype AgentOption = AgentOption(key: string, value: string, text: string)

  /** The last character of a name that ends with `suffix`. */
  lemma LastCharOfSuffix(name: string, suffix: string, k: nat)
    requires EndsWith(name, suffix) && k < |suffix|
    ensures name[|name| - |suffix| + k] == suffix[k]
  {
    assert name[|name| - |suffix|..][k] == suffix[k];
  }

  /** No name ends with two of `.md`, `.yaml` and `.yml`, so the order in
      which the alternatives are tried does not matter. */
  lemma SuffixesExclusive(name: string)
    ensures !(EndsWith(name, ".md") && EndsWith(name, ".yaml"))
    ensures !(EndsWith(name, ".md") && EndsWith(name, ".yml"))
    ensures !(EndsWith(name, ".yaml") && EndsWith(name, ".yml"))
  {
    if EndsWith(name, ".md") {
      LastCharOfSuffix(name, ".md", 2);
    }
    if EndsWith(name, ".yaml") {
      LastCharOfSuffix(name, ".yaml", 4);
      LastCharOfSuffix(name, ".yaml", 2);
    }
    if EndsWith(name, ".yml") {
      LastCharOfSuffix(name, ".yml", 1);
    }
  }

  /** `name.replace(/\.(md|yaml|yml)$/, '')`: one trailing `.md`, `.yaml` or
      `.yml` (case-sensitive) is removed; any other name is kept. */
  function BaseName(name: string): (r: string)
    ensures EndsWith(name, ".md") ==> r + ".md" == name
    ensures EndsWith(name, ".yaml") ==> r + ".yaml" == name
    ensures EndsWith(name, ".yml") ==> r + ".yml" == name
    ensures !EndsWith(name, ".md") && !EndsWith(name, ".yaml") && !EndsWith(name, ".yml") ==>
      r == name
  {
    SuffixesExclusive(name);
    if EndsWith(name, ".md") then name[..|name| - 3]
    else if EndsWith(name, ".yaml") then name[..|name| - 5]
    else if EndsWith(name, ".yml") then name[..|name| - 4]
    else name
  }

  const PreviewLimit := 100
  const Ellipsis := "..."

  /** `d.substring(0, 100)` followed by `...` when `d` is longer than 100. */
  function Preview(d: string): (r: string)
    ensures |d| <= PreviewLimit ==> r == d
    ensures |d| > PreviewLimit ==> r == d[..PreviewLimit] + Ellipsis
    ensures |r| <= PreviewLimit + |Ellipsis|
  {
    var cut := if |d| < PreviewLimit then |d| else PreviewLimit;
    d[..cut] + (if |d| > PreviewLimit then Ellipsis else "")
  }

  /** The text of an agent's option: the base name, a space, and, when the
      description is non-empty, a dash and its preview. */
  function OptionLabel(a: AgentInfo): (r: string)
    ensures var base := BaseName(a.name);
      |r| > |base| && r[..|base| + 1] == base + " "
    ensures var base := BaseName(a.name);
      a.description.None? || a.description.value == "" ==> r == base + " "
    ensures var base := BaseName(a.name);
      a.description.Some? && a.description.value != "" ==>
        r[|base| + 1..] == "- " + Preview(a.description.value)
  {
    var base := BaseName(a.name);
    var detail := if a.description.Some? && a.description.value != ""
      then "- " + Preview(a.description.value) else "";
    base + " " + detail
  }

  /** The selector's options, one per agent in the fetched order, keyed by the
      raw name and valued by the base name. */
  function AgentOptions(agents: seq<AgentInfo>): (r: seq<AgentOption>)
    ensures |r| == |agents|
    ensures forall i :: 0 <= i < |r| ==>
      r[i].key == agents[i].name &&
      r[i].value == BaseName(agents[i].name) &&
      r[i].text == OptionLabel(agents[i])
  {
    seq(|agents|, i requires 0 <= i < |agents| =>
      AgentOption(agents[i].name, BaseName(agents[i].name), OptionLabel(agents[i])))
  }

  /** Picking an option stores the agent's base name, not the file name, in
      the draft. */
  lemma PickedAgentIsBaseName(d: Draft, agents: seq<AgentInfo>, i: nat)
    requires i < |agents|
    ensures WithField(d, Agent, AgentOptions(agents)[i].value).agent == BaseName(agents[i].name)
  {
  }

  /** An agent file `reviewer.yaml` whose description has 120 characters is
      offered under the value `reviewer` with the first 100 characters of the
      description and an ellipsis. */
  lemma ReviewerOption(description: string)
    requires |description| == 120
    ensures BaseName("reviewer.yaml") == "reviewer"
    ensures OptionLabel(AgentInfo("reviewer.yaml", Some(description))) ==
      "reviewer - " + description[..100] + "..."
  {
    assert "reviewer.yaml"[13 - 5..] == ".yaml";
    assert !EndsWith("reviewer.yaml", ".md");
  }
}
