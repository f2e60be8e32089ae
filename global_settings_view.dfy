/**
  The global-settings panel as a state machine: seven field values plus the
  `showApiKey`, `loading` and `saving` flags, updated by the load on mount,
  the form's change handlers, the submit handler and the reveal button. The
  HTTP outcomes are parameters; the notifications shown and the bodies sent
  are recorded in the object.
 */
module GlobalSettingsView {
  import opened Js
  import opened SettingsRecord

  datatype Severity = Success | Error

  /** A call of the `showToast(message, severity)` sink. */
  datatype Toast = Toast(message: string, severity: Severity)

  /** How the settings fetch ended: an ok response with its parsed body, a
      non-ok response, or an exception (transport failure, unparsable body). */
  datatype LoadOutcome = Fetched(body: Value) | LoadRejected | LoadThrew

  /** How the save request ended. */
  datatype SaveOutcome = SaveAccepted | SaveRejected | SaveThrew

  const LoadFailed := Toast("Failed to load settings", Error)
  const LoadError := Toast("Error loading settings", Error)
  /** The translation key of the success message. */
  const Saved := Toast("settingsSaved", Success)
  const SaveError := Toast("Error saving settings", Error)

  /** The settings field an input's change handler writes. */
  datatype Input = Input(field: SettingField, text: string)

  class SettingsPanel {
    var claudeFolderPath: Value
    var aiKey: Value
    var aiModel: Value
    var apiHostname: Value
    var apiPort: Value
    var apiPath: Value
    var apiProtocol: Value
    var showApiKey: bool
    var loading: bool
    var saving: bool
    /** Every notification shown, oldest first. */
    var toasts: seq<Toast>
    /** Every save body sent, oldest first. */
    var writes: seq<map<string, Value>>
    /** Whether the parent supplied `showToast`. */
    const hasToastSink: bool

    function Current(): Settings
      reads this
    {
      Settings(claudeFolderPath, aiKey, aiModel, apiHostname, apiPort, apiPath, apiProtocol)
    }

    /** No field ever holds `undefined`: every save body carries all seven. */
    predicate Valid()
      reads this
    {
      Defined(Current())
    }

    /** What `showToast` receives, when there is a sink. */
    function Notify(t: Toast): seq<Toast>
    {
      if hasToastSink then [t] else []
    }

    constructor (hasToastSink: bool)
      ensures Valid()
      ensures Current() == Defaults
      ensures !showApiKey && !loading && !saving
      ensures toasts == [] && writes == []
      ensures this.hasToastSink == hasToastSink
    {
      claudeFolderPath := Str("");
      aiKey := Str("");
      aiModel := Str("glm-4-6");
      apiHostname := Str("localhost");
      apiPort := Num(3005);
      apiPath := Str("/v1/chat/completions");
      apiProtocol := Str("http");
      showApiKey := false;
      loading := false;
      saving := false;
      toasts := [];
      writes := [];
      this.hasToastSink := hasToastSink;
    }

    /** `loadGlobalSettings()`: on an ok response every field is read from the
        body; any failure (non-ok, thrown, or a `null` body whose property
        access throws) changes no field and shows one error notification.
        `loading` always ends false. */
    method LoadGlobalSettings(outcome: LoadOutcome)
      requires Valid()
      modifies this
      ensures Valid()
      ensures !loading
      ensures saving == old(saving) && showApiKey == old(showApiKey) && writes == old(writes)
      ensures outcome.Fetched? && ReadSettings(outcome.body).Some? ==>
        Current() == ReadSettings(outcome.body).value && toasts == old(toasts)
      ensures outcome.Fetched? && ReadSettings(outcome.body).None? ==>
        Current() == old(Current()) && toasts == old(toasts) + Notify(LoadError)
      ensures outcome.LoadRejected? ==>
        Current() == old(Current()) && toasts == old(toasts) + Notify(LoadFailed)
      ensures outcome.LoadThrew? ==>
        Current() == old(Current()) && toasts == old(toasts) + Notify(LoadError)
    {
      loading := true;
      match outcome {
        case Fetched(body) =>
          var read := ReadSettings(body);
          if read.Some? {
            var s := read.value;
            claudeFolderPath := s.claudeFolderPath;
            aiKey := s.aiKey;
            aiModel := s.aiModel;
            apiHostname := s.apiHostname;
            apiPort := s.apiPort;
            apiPath := s.apiPath;
            apiProtocol := s.apiProtocol;
          } else {
            toasts := toasts + Notify(LoadError);
          }
        case LoadRejected =>
          toasts := toasts + Notify(LoadFailed);
        case LoadThrew =>
          toasts := toasts + Notify(LoadError);
      }
      loading := false;
    }

    /** An input's `onChange`: the field takes the input's text (for the port
        too, which then holds a string). */
    method Edit(input: Input)
      requires Valid()
      modifies this
      ensures Valid()
      ensures Current() == With(old(Current()), input.field, Str(input.text))
      ensures showApiKey == old(showApiKey) && loading == old(loading) && saving == old(saving)
      ensures toasts == old(toasts) && writes == old(writes)
    {
      var v := Str(input.text);
      match input.field {
        case ClaudeFolderPath => claudeFolderPath := v;
        case AiKey => aiKey := v;
        case AiModel => aiModel := v;
        case ApiHostname => apiHostname := v;
        case ApiPort => apiPort := v;
        case ApiPath => apiPath := v;
        case ApiProtocol => apiProtocol := v;
      }
      assert Current() == With(old(Current()), input.field, v);
      assert forall f :: SettingValue(Current(), f) == SettingValue(old(Current()), f) || SettingValue(Current(), f) == v;
    }

    /** `handleSubmit()`: send all seven current values, then notify success on
        an ok response and an error otherwise. No field changes and `saving`
        always ends false. */
    method HandleSubmit(outcome: SaveOutcome)
      requires Valid()
      modifies this
      ensures Valid()
      ensures Current() == old(Current())
      ensures !saving && loading == old(loading) && showApiKey == old(showApiKey)
      ensures writes == old(writes) + [SaveBody(old(Current()))]
      ensures toasts == old(toasts) + Notify(if outcome.SaveAccepted? then Saved else SaveError)
    {
      saving := true;
      var body := SaveBody(Current());
      writes := writes + [body];
      if outcome.SaveAccepted? {
        toasts := toasts + Notify(Saved);
      } else {
        toasts := toasts + Notify(SaveError);
      }
      saving := false;
    }

    /** The reveal button: flips `showApiKey` and nothing else. */
    method ToggleShowApiKey()
      requires Valid()
      modifies this
      ensures Valid()
      ensures showApiKey == !old(showApiKey)
      ensures Current() == old(Current())
      ensures loading == old(loading) && saving == old(saving)
      ensures toasts == old(toasts) && writes == old(writes)
    {
      showApiKey := !showApiKey;
    }
  }

  /** Two clicks on the reveal button restore the visibility and leave every
      field as it was. */
  method RevealTwice(panel: SettingsPanel)
    requires panel.Valid()
    modifies panel
    ensures panel.Valid()
    ensures panel.showApiKey == old(panel.showApiKey)
    ensures panel.Current() == old(panel.Current())
  {
    panel.ToggleShowApiKey();
    panel.ToggleShowApiKey();
  }

  /** Mount, load a record whose seven fields are all truthy, and save without
      editing: the body sent is those seven values. */
  method LoadThenSubmit(fields: map<string, Value>, saved: SaveOutcome) returns (panel: SettingsPanel)
    requires forall k :: k in BodyKeys ==> k in fields && Truthy(fields[k])
    ensures panel.writes == [map k | k in BodyKeys :: fields[k]]
    ensures !panel.loading && !panel.saving
  {
    panel := new SettingsPanel(true);
    panel.LoadGlobalSettings(Fetched(Obj(fields)));
    panel.HandleSubmit(saved);
    LoadThenSave(fields);
  }
}
