/**
 JSON values. Object keys are constructors for the names the protocols use and `OtherKey`
 for every other name; converting between text and values is a parameter.
 */
module Json {
  import opened Common
  import opened Text

  datatype Field =
    | ModelKey | MessagesKey | SystemKey | StreamKey | MaxTokensKey | RoleKey | ContentKey | TypeKey | TextKey
    | IdKey | NameKey | InputKey | ToolUseIdKey | DescriptionKey | InputSchemaKey | ToolsKey | ToolChoiceKey
    | DisableParallelKey | TemperatureKey | TopPKey | TopKKey | StopSequencesKey | StopKey | PresencePenaltyKey
    | FrequencyPenaltyKey | SeedKey | ResponseFormatKey | StreamOptionsKey | IncludeUsageKey | CountKey | StoreKey
    | ReasoningEffortKey | ReasoningContentKey | ToolCallsKey | ToolCallIdKey | FunctionKey | ArgumentsKey
    | ParametersKey | StrictKey | ParallelToolCallsKey | PropertiesKey
    | OtherKey(name: string)

  /** Integers and other numbers are apart, as `is_u64` and `is_i64` tell them apart. */
  datatype Json =
    | JNull
    | JBool(value: bool)
    | JInt(i: int)
    | JFloat(digits: string)
    | JString(s: string)
    | JArray(items: seq<Json>)
    | JObject(fields: map<Field, Json>)

  type Object = map<Field, Json>

  datatype Error = Invalid

  function Get(v: Json, key: Field): (r: Option<Json>)
    ensures r.Some? ==> r.value < v
  {
    if v.JObject? && key in v.fields then Some(v.fields[key]) else None
  }

  function AsString(v: Option<Json>): Option<string> {
    if v.Some? && v.value.JString? then Some(v.value.s) else None
  }

  function AsBool(v: Option<Json>): Option<bool> {
    if v.Some? && v.value.JBool? then Some(v.value.value) else None
  }

  predicate Has(v: Json, key: Field, text: string) {
    AsString(Get(v, key)) == Some(text)
  }

  /** A field that is present and not null. */
  predicate Given(fields: Object, key: Field) {
    key in fields && fields[key] != JNull
  }

  function RequiredString(v: Json, key: Field): Result<string, Error> {
    var s := AsString(Get(v, key));
    if s.Some? && !IsBlank(s.value) then Ok(s.value) else Err(Invalid)
  }

  /** Reading and writing JSON text: reading back what was written gives the same value. */
  datatype Codec = Codec(read: string -> Option<Json>, write: Json -> string) {
    ghost predicate Valid() {
      forall j :: read(write(j)) == Some(j)
    }
  }
}
