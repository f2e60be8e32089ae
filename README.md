# Task viewer: task-creation modal and global-settings panel

A Dafny model of the logic inside two React components of the task viewer's
web UI (`tools/task-viewer/src/components/`):

- **TaskCreateView** — a modal that collects a task draft (name, description,
  notes, implementation guide, verification criteria, assigned agent and a list
  of dependency ids), validates the two required fields, POSTs the draft to
  `/api/tasks/{profileId}/create`, and reports either the created task to its
  parent or an inline error.
- **GlobalSettingsView** — a form over seven settings (Claude folder path, AI
  key, AI model, API hostname, port, path and protocol). It loads them from
  `/api/global-settings` on mount, keeping a default for every value that is not
  truthy, and PUTs all seven back on submit, with the key under `openAIKey`
  both ways.

Files and modules:

| file | module | what it holds |
|---|---|---|
| `js.dfy` | `Js` | JavaScript values and truthiness, the logical or, property access, `String.prototype.trim` |
| `task_draft.dfy` | `TaskDraft` | the draft record, field update, dependency toggle, validation, failure message, agent options, dependency checkboxes |
| `task_create_view.dfy` | `TaskCreateView` | the modal's state (`draft`, `isSaving`, `error`) as a class, `indexOf` as a loop, two client scenarios |
| `settings_record.dfy` | `SettingsRecord` | the seven settings, their defaults, reading a fetched object, the save body, the load/save round trips |
| `global_settings_view.dfy` | `GlobalSettingsView` | the panel's state (seven fields, `showApiKey`, `loading`, `saving`) as a class, two client scenarios |

The HTTP exchanges are not modelled as transport. Each handler takes the
outcome of its request as a parameter:
- create: created task, or non-ok response with its text, or exception;
- settings load: ok with parsed body, or non-ok, or exception;
- settings save: ok, or non-ok, or exception.

The objects record what the components send out. The modal keeps the create
requests and the calls made on `onTaskCreated`/`onClose`. The panel keeps the
save bodies and the calls made on `showToast`.

Behaviour of the code worth noting:
- A load keeps a field's default whenever the received value is falsy (`""`,
  `0`, `false`, `null`), not only when it is missing. So a saved port of `0`
  reloads as `3005` (`SettingsRecord.FalsyValueReloadsAsDefault`).
- A failed load leaves the fields as they were rather than resetting them to
  the defaults. On the load at mount this is the same thing.
- A parsed body of `null` makes the first property read throw. That is caught
  and shown as "Error loading settings". A body that is a string, number or
  array yields all defaults.
- Dismissing the modal is not blocked while a save is in flight: only the
  Cancel button is disabled; the overlay and the × button still call `onClose`.
  Dismissal is rendering and is not modelled.

## Model

| member | source | states |
|---|---|---|
| `TaskCreateView.TaskCreateModal.constructor` | tools/task-viewer/src/components/TaskCreateView.jsx:7-17 | the modal opens with an all-empty draft and no dependencies, `isSaving` false and no error |
| `TaskDraft.WithField` | tools/task-viewer/src/components/TaskCreateView.jsx:39-44 | the named field takes the new value; every other text field and the dependency list keep their values |
| `TaskCreateView.TaskCreateModal.HandleInputChange` | tools/task-viewer/src/components/TaskCreateView.jsx:39-44 | the draft becomes `WithField` of the old draft; flags, error, requests and callbacks unchanged; the no-duplicates invariant is kept |
| `TaskDraft.FirstIndex` | tools/task-viewer/src/components/TaskCreateView.jsx:49 | for a present id: a position holding it with no earlier position holding it |
| `TaskCreateView.IndexOf` | tools/task-viewer/src/components/TaskCreateView.jsx:49 | `indexOf` returns -1 exactly when the id is absent, otherwise the first position holding it |
| `TaskDraft.RemoveFirstIsSplice` | tools/task-viewer/src/components/TaskCreateView.jsx:49-53 | removing the first occurrence equals `splice(indexOf(id), 1)`: the elements before and after keep their order |
| `TaskDraft.RemoveFirstMultiset` | tools/task-viewer/src/components/TaskCreateView.jsx:53 | the removal takes out exactly one copy of the id |
| `TaskDraft.ToggleAppendsOrSplices` | tools/task-viewer/src/components/TaskCreateView.jsx:46-61 | an absent id is appended after all existing entries; a present id loses exactly its first occurrence |
| `TaskDraft.ToggleMultiset` | tools/task-viewer/src/components/TaskCreateView.jsx:46-61 | as a multiset the list loses one copy of a present id or gains one copy of an absent one |
| `TaskDraft.ToggleKeepsOthers` | tools/task-viewer/src/components/TaskCreateView.jsx:46-61 | toggling one id never changes whether any other id is in the list |
| `TaskDraft.ToggleFlipsOwn` | tools/task-viewer/src/components/TaskCreateView.jsx:46-61 | on a duplicate-free list the toggled id is in the result exactly when it was not in the input |
| `TaskDraft.TogglePreservesNoDuplicates` | tools/task-viewer/src/components/TaskCreateView.jsx:46-61 | a duplicate-free list stays duplicate-free after any toggle |
| `TaskDraft.ToggleTwiceRestores` | tools/task-viewer/src/components/TaskCreateView.jsx:46-61 | from a list without the id, two toggles give back the original list |
| `TaskDraft.ToggleTwiceSameContents` | tools/task-viewer/src/components/TaskCreateView.jsx:46-61 | on a duplicate-free list two toggles restore the contents; a present id comes back at the end |
| `TaskCreateView.TaskCreateModal.HandleDependencyToggle` | tools/task-viewer/src/components/TaskCreateView.jsx:46-61 | the `indexOf`/`splice`/`push` handler leaves the draft with its dependencies toggled and nothing else changed, keeping them duplicate-free |
| `TaskDraft.Picker` | tools/task-viewer/src/components/TaskCreateView.jsx:207-223 | a placeholder when the candidate list is absent or empty; otherwise one checkbox per candidate in order, checked exactly when its id is in the dependency list |
| `TaskDraft.ToggleFlipsOnlyItsCheckbox` | tools/task-viewer/src/components/TaskCreateView.jsx:208-215 | clicking a checkbox flips every box with that id and no other box |
| `Js.TrimStart` | tools/task-viewer/src/components/TaskCreateView.jsx:68 | everything removed from the front is whitespace and the rest does not start with whitespace |
| `Js.TrimEnd` | tools/task-viewer/src/components/TaskCreateView.jsx:68 | everything removed from the back is whitespace and the rest does not end with whitespace |
| `Js.TrimStartIsSuffix` | tools/task-viewer/src/components/TaskCreateView.jsx:68 | what leading-whitespace removal leaves is a suffix of the input |
| `Js.TrimEndIsPrefix` | tools/task-viewer/src/components/TaskCreateView.jsx:68 | what trailing-whitespace removal leaves is a prefix of the input |
| `Js.TrimEmptyIffBlank` | tools/task-viewer/src/components/TaskCreateView.jsx:68 | `trim()` gives the empty string exactly when every character is JavaScript whitespace |
| `Js.TrimIsInnerSlice` | tools/task-viewer/src/components/TaskCreateView.jsx:74 | a non-empty trimmed string starts and ends with non-whitespace and is a contiguous slice of the input |
| `TaskDraft.Validate` | tools/task-viewer/src/components/TaskCreateView.jsx:67-78 | "Task name is required" exactly when the name is blank, whatever the description; "Task description is required" exactly when the name is not blank and the description is; no error exactly when both are non-blank |
| `TaskDraft.FailureMessage` | tools/task-viewer/src/components/TaskCreateView.jsx:89-103 | "Failed to create task: " followed by the server's text, or by "Failed to create task" when that text is empty, or by the exception's message |
| `TaskCreateView.TaskCreateModal.HandleSave` | tools/task-viewer/src/components/TaskCreateView.jsx:63-107 | every path ends with `isSaving` false and the draft unchanged; a validation error is shown and no request is sent; otherwise one request carries the draft, and a created task is passed to `onTaskCreated` (when supplied) before `onClose`, while a failure shows `FailureMessage` and calls nothing |
| `TaskCreateView.BlankNameIsBlocked` | tools/task-viewer/src/components/TaskCreateView.jsx:67-72 | an empty name with description "do X" is blocked with the name error and no request |
| `TaskCreateView.DuplicateNameIsReported` | tools/task-viewer/src/components/TaskCreateView.jsx:89-106 | a create answered non-ok with "duplicate name" keeps the draft, calls no callback and shows that text after the prefix |
| `TaskDraft.SuffixesExclusive` | tools/task-viewer/src/components/TaskCreateView.jsx:194 | no name ends with two of `.md`, `.yaml`, `.yml`, so the alternatives of the pattern never compete |
| `TaskDraft.BaseName` | tools/task-viewer/src/components/TaskCreateView.jsx:194 | a name ending in `.md`, `.yaml` or `.yml` (case-sensitive) loses exactly that one suffix; any other name is unchanged |
| `TaskDraft.Preview` | tools/task-viewer/src/components/TaskCreateView.jsx:197 | a description of at most 100 characters is shown whole; a longer one as its first 100 characters and `...`; never more than 103 characters |
| `TaskDraft.OptionLabel` | tools/task-viewer/src/components/TaskCreateView.jsx:197 | the label is the base name and a space, then `- ` and the preview only when the description is present and non-empty |
| `TaskDraft.AgentOptions` | tools/task-viewer/src/components/TaskCreateView.jsx:193-200 | one option per agent in order, keyed by the raw name, valued by the base name, labelled by `OptionLabel` |
| `TaskDraft.PickedAgentIsBaseName` | tools/task-viewer/src/components/TaskCreateView.jsx:189-196 | choosing an option stores the agent's base name, not its file name, in the draft |
| `TaskDraft.ReviewerOption` | tools/task-viewer/src/components/TaskCreateView.jsx:194-197 | `reviewer.yaml` with a 120-character description gives value `reviewer` and label `reviewer - ` + first 100 characters + `...` |
| `GlobalSettingsView.SettingsPanel.constructor` | tools/task-viewer/src/components/GlobalSettingsView.jsx:6-15 | before any load the fields are `''`, `''`, `'glm-4-6'`, `'localhost'`, `3005`, `'/v1/chat/completions'`, `'http'` and the three flags are false |
| `SettingsRecord.JsonKeyIsBijection` | tools/task-viewer/src/components/GlobalSettingsView.jsx:62-70 | the seven fields travel under seven distinct keys, the key field under `openAIKey` |
| `SettingsRecord.ReadSettings` | tools/task-viewer/src/components/GlobalSettingsView.jsx:26-35 | a `null` body throws; from an object each field takes the value under its key when present and truthy and its default otherwise; any other body gives the defaults; no loaded field is `undefined` |
| `SettingsRecord.PartialResponseKeepsDefaults` | tools/task-viewer/src/components/GlobalSettingsView.jsx:29-35 | a response with only a folder path and port 8080 yields those two and the defaults everywhere else |
| `SettingsRecord.FalsyValueReloadsAsDefault` | tools/task-viewer/src/components/GlobalSettingsView.jsx:29-35 | a saved falsy value (port 0, an empty model) comes back from a reload as the field's default |
| `GlobalSettingsView.SettingsPanel.LoadGlobalSettings` | tools/task-viewer/src/components/GlobalSettingsView.jsx:23-50 | an ok response sets the fields to `ReadSettings` of the body; a non-ok response, an exception or a `null` body changes no field and emits one error toast when a sink is supplied; `loading` ends false |
| `SettingsRecord.With` | tools/task-viewer/src/components/GlobalSettingsView.jsx:106-229 | an input's change handler sets its field and leaves the other six as they were |
| `GlobalSettingsView.SettingsPanel.Edit` | tools/task-viewer/src/components/GlobalSettingsView.jsx:106-229 | an edit stores the input's text in its one field (the port then holds a string) and changes nothing else |
| `SettingsRecord.SaveBody` | tools/task-viewer/src/components/GlobalSettingsView.jsx:62-70 | the body has exactly the seven keys, each holding the current value of its field, unchanged fields included; with no field `undefined`, none is dropped |
| `GlobalSettingsView.SettingsPanel.HandleSubmit` | tools/task-viewer/src/components/GlobalSettingsView.jsx:52-88 | one body equal to `SaveBody` of the current fields is sent; a success toast on an ok response and an error toast otherwise; no field changes; `saving` ends false |
| `SettingsRecord.LoadThenSave` | tools/task-viewer/src/components/GlobalSettingsView.jsx:29-70 | loading an object whose seven fields are all truthy, then saving without edits, sends exactly those seven values |
| `SettingsRecord.SaveThenLoad` | tools/task-viewer/src/components/GlobalSettingsView.jsx:29-70 | reading back a saved body whose values are all truthy gives the same settings |
| `GlobalSettingsView.LoadThenSubmit` | tools/task-viewer/src/components/GlobalSettingsView.jsx:23-88 | mount, load an all-truthy record and submit: the one body sent equals the record's seven fields |
| `GlobalSettingsView.SettingsPanel.ToggleShowApiKey` | tools/task-viewer/src/components/GlobalSettingsView.jsx:145-147 | the reveal button flips `showApiKey` and changes nothing else |
| `GlobalSettingsView.RevealTwice` | tools/task-viewer/src/components/GlobalSettingsView.jsx:147 | two flips restore `showApiKey` and leave every field unchanged |

## Left out

- The agent-list fetch (`loadAgents`, TaskCreateView.jsx lines 21-37). The agents are an input sequence to `AgentOptions`.
- `fetch` and the `async`/`await` sequencing. Each handler runs as one step with its request's outcome as a parameter. The `loading`/`saving`/`isSaving` flags are set to true at the start and false at the end, so the in-flight state is not observable between steps.
- Unmount and stale-response races, which are concurrency concerns.
- JSON parsing and `JSON.stringify`. A parse failure is one of the exception outcomes. A save body is the object as a map, so the key order of the serialized text is not modelled.
- Rendering: JSX layout, styles, the loading screen, the `disabled` attributes, and the modal overlay, close and Cancel controls with their click propagation.
- i18n lookups. The success toast records its translation key `settingsSaved` in place of the translated text.
- `console.log`/`console.error` and `e.preventDefault()`.
- JavaScript strings are UTF-16. The model counts `char`s (Unicode scalar values), so `length` and `substring(0, 100)` differ from the source for characters outside the Basic Multilingual Plane.
- JavaScript numbers are modelled as integers: `NaN`, `-0` and fractions are not represented.
- Property access on a non-object body yields `undefined` for the seven keys. Inherited prototype properties are not modelled.
- A callback (`onTaskCreated`, `onClose`, `showToast`) that throws is not modelled. The callbacks are recorded as events.
