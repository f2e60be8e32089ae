/**
  The global-settings record: its seven fields with their defaults, how a
  fetched settings object is read into them (a field's value is taken only
  when it is truthy), and the body a save sends. The API key is held as
  `aiKey` and travels under the JSON key `openAIKey` both ways.
 */
module SettingsRecord {
  import opened Js

  datatype SettingField = ClaudeFolderPath | AiKey | AiModel | ApiHostname | ApiPort | ApiPath | ApiProtocol

  /** The seven values the settings form holds. */
  datatype Settings = Settings(
    claudeFolderPath: Value,
    aiKey: Value,
    aiModel: Value,
    apiHostname: Value,
    apiPort: Value,
    apiPath: Value,
    apiProtocol: Value)

  /** The values before any load, which are also the fallbacks of a load. */
  const Defaults := Settings(
    Str(""), Str(""), Str("glm-4-6"), Str("localhost"), Num(3005), Str("/v1/chat/completions"), Str("http"))

  function SettingValue(s: Settings, f: SettingField): Value
  {
    match f
    case ClaudeFolderPath => s.claudeFolderPath
    case AiKey => s.aiKey
    case AiModel => s.aiModel
    case ApiHostname => s.apiHostname
    case ApiPort => s.apiPort
    case ApiPath => s.apiPath
    case ApiProtocol => s.apiProtocol
  }

  /** One field set, as an input's change handler does. */
  function With(s: Settings, f: SettingField, v: Value): (r: Settings)
    ensures SettingValue(r, f) == v
    ensures forall g :: g != f ==> SettingValue(r, g) == SettingValue(s, g)
  {
    match f
    case ClaudeFolderPath => s.(claudeFolderPath := v)
    case AiKey => s.(aiKey := v)
    case AiModel => s.(aiModel := v)
    case ApiHostname => s.(apiHostname := v)
    case ApiPort => s.(apiPort := v)
    case ApiPath => s.(apiPath := v)
    case ApiProtocol => s.(apiProtocol := v)
  }

  /** The key a field has in the fetched object and in the save body. */
  function JsonKey(f: SettingField): string
  {
    match f
    case ClaudeFolderPath => "claudeFolderPath"
    case AiKey => "openAIKey"
    case AiModel => "aiModel"
    case ApiHostname => "apiHostname"
    case ApiPort => "apiPort"
    case ApiPath => "apiPath"
    case ApiProtocol => "apiProtocol"
  }

  const BodyKeys: set<string> :=
    {"claudeFolderPath", "openAIKey", "aiModel", "apiHostname", "apiPort", "apiPath", "apiProtocol"}

  /** Distinct fields travel under distinct keys, and the keys are exactly
      the seven of the save body. */
  lemma JsonKeyIsBijection()
    ensures forall f, g :: f != g ==> JsonKey(f) != JsonKey(g)
    ensures forall k :: k in BodyKeys <==> exists f :: JsonKey(f) == k
  {
    assert JsonKey(ClaudeFolderPath) == "claudeFolderPath";
    assert JsonKey(AiKey) == "openAIKey";
    assert JsonKey(AiModel) == "aiModel";
    assert JsonKey(ApiHostname) == "apiHostname";
    assert JsonKey(ApiPort) == "apiPort";
    assert JsonKey(ApiPath) == "apiPath";
    assert JsonKey(ApiProtocol) == "apiProtocol";
  }

  /** No field holds `undefined`, so `JSON.stringify` writes all seven. */
  predicate Defined(s: Settings)
  {
    forall f :: SettingValue(s, f) != Undefined
  }

  /** The value an object provides for a field: its entry under the field's
      key when present and truthy, the field's default otherwise. */
  function Provided(fields: map<string, Value>, f: SettingField): Value
  {
    var k := JsonKey(f);
    if k in fields && Truthy(fields[k]) then fields[k] else SettingValue(Defaults, f)
  }

  /** `settings.<key> || <default>` for one field of a body that is not null. */
  function ReadField(body: Value, f: SettingField): Value
    requires !body.Null? && !body.Undefined?
  {
    Or(Property(body, JsonKey(f)).value, SettingValue(Defaults, f))
  }

  /** The successful branch of `loadGlobalSettings`. On a `null` body the first
      property access throws, which is None. Otherwise each field takes the
      object's value under its key when that value is truthy and its default
      when the key is missing or the value is `""`, `0`, `false` or `null`;
      a body that is not an object yields the defaults. */
  function ReadSettings(body: Value): (r: Option<Settings>)
    ensures r.None? <==> body.Null? || body.Undefined?
    ensures body.Obj? ==> r.Some? && forall f :: SettingValue(r.value, f) == Provided(body.fields, f)
    ensures r.Some? && !body.Obj? ==> r.value == Defaults
    ensures r.Some? ==> Defined(r.value)
  {
    if body.Null? || body.Undefined? then None
    else
      var s := Settings(
        ReadField(body, ClaudeFolderPath),
        ReadField(body, AiKey),
        ReadField(body, AiModel),
        ReadField(body, ApiHostname),
        ReadField(body, ApiPort),
        ReadField(body, ApiPath),
        ReadField(body, ApiProtocol));
      assert forall f :: SettingValue(s, f) == ReadField(body, f);
      Some(s)
  }

  /** The object `handleSubmit` sends: all seven current values, unchanged
      ones included, the key under `openAIKey`. */
  function SaveBody(s: Settings): (r: map<string, Value>)
    ensures r.Keys == BodyKeys
    ensures forall f :: JsonKey(f) in r && r[JsonKey(f)] == SettingValue(s, f)
    ensures Defined(s) ==> Undefined !in r.Values
  {
    assert SettingValue(s, ClaudeFolderPath) == s.claudeFolderPath && SettingValue(s, AiKey) == s.aiKey;
    assert SettingValue(s, AiModel) == s.aiModel && SettingValue(s, ApiHostname) == s.apiHostname;
    assert SettingValue(s, ApiPort) == s.apiPort && SettingValue(s, ApiPath) == s.apiPath;
    assert SettingValue(s, ApiProtocol) == s.apiProtocol;
    map[
      "claudeFolderPath" := s.claudeFolderPath,
      "openAIKey" := s.aiKey,
      "aiModel" := s.aiModel,
      "apiHostname" := s.apiHostname,
      "apiPort" := s.apiPort,
      "apiPath" := s.apiPath,
      "apiProtocol" := s.apiProtocol]
  }

  /** Loading an object whose seven fields are all present and truthy, then
      saving without edits, sends exactly those seven values. */
  lemma LoadThenSave(fields: map<string, Value>)
    requires forall k :: k in BodyKeys ==> k in fields && Truthy(fields[k])
    ensures ReadSettings(Obj(fields)).Some?
    ensures SaveBody(ReadSettings(Obj(fields)).value) == map k | k in BodyKeys :: fields[k]
  {
    var s := ReadSettings(Obj(fields)).value;
    JsonKeyIsBijection();
    forall k | k in BodyKeys ensures SaveBody(s)[k] == fields[k] {
      var f :| JsonKey(f) == k;
      assert SettingValue(s, f) == fields[k];
    }
  }

  /** Saving values that are all truthy and reading the saved object back
      gives the same values. */
  lemma SaveThenLoad(s: Settings)
    requires forall f :: Truthy(SettingValue(s, f))
    ensures ReadSettings(Obj(SaveBody(s))) == Some(s)
  {
    var r := ReadSettings(Obj(SaveBody(s))).value;
    assert forall f :: SettingValue(r, f) == SettingValue(s, f);
  }

  /** A falsy value does not survive a save and reload: the field comes back
      as its default (a port of 0 comes back as 3005). */
  lemma FalsyValueReloadsAsDefault(s: Settings, f: SettingField)
    requires !Truthy(SettingValue(s, f))
    ensures SettingValue(ReadSettings(Obj(SaveBody(s))).value, f) == SettingValue(Defaults, f)
  {
  }

  /** A response carrying only a folder path and a port: those two are taken,
      every other field keeps its default. */
  lemma PartialResponseKeepsDefaults()
    ensures
      var body := Obj(map["claudeFolderPath" := Str("/home/u/.claude"), "apiPort" := Num(8080)]);
      ReadSettings(body) == Some(Defaults.(claudeFolderPath := Str("/home/u/.claude"), apiPort := Num(8080)))
  {
    var body := Obj(map["claudeFolderPath" := Str("/home/u/.claude"), "apiPort" := Num(8080)]);
    JsonKeyIsBijection();
    var r := ReadSettings(body).value;
    assert SettingValue(r, ClaudeFolderPath) == Str("/home/u/.claude");
    assert SettingValue(r, ApiPort) == Num(8080);
  }
}
