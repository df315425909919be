/** One configuration variable, `ConfigVar<T>` together with its base
    `ConfigVarBase` (mocker/config.h:22-43, 302-342).

    The C++ template parameter T is represented by two things: the value
    universe `V`, shared by every variable of one registry, and the
    `typeName` tag that `getTypeName()` reports. The `LexicalCast`
    conversions are not modelled; each operation that needs one receives it
    as a partial function returning `Option`, `None` standing for the
    exception the conversion throws. */
module ConfigVars {
  import opened Wrappers
  import opened ConfigNames

  /** `typeid(T).name()`: the run-time identity of the value type. */
  type TypeName = string

  datatype ConfigVar<V> = ConfigVar(
    name: string,        // m_name, lower-cased at construction
    description: string, // m_description
    typeName: TypeName,  // getTypeName()
    value: V             // m_val
  )

  /** The constructor chain `ConfigVar(name, default_value, description)`
      then `ConfigVarBase(name, description)`; the description defaults to
      the empty string. */
  function NewConfigVar<V>(name: string, typeName: TypeName, default: V, description: string := ""): (v: ConfigVar<V>)
    ensures |v.name| == |name|
    ensures forall i :: 0 <= i < |name| ==> v.name[i] == ToLower(name[i])
    ensures HasNoUpper(v.name)
    ensures v.description == description
    ensures v.typeName == typeName
    ensures v.value == default
  {
    LowerHasNoUpper(name);
    ConfigVar(Lower(name), description, typeName, default)
  }

  /** `getValue()`. */
  function GetValue<V>(v: ConfigVar<V>): (x: V)
    ensures SetValue(v, x) == v
  {
    v.value
  }

  /** `setValue(x)`: only the held value changes. */
  function SetValue<V>(v: ConfigVar<V>, x: V): (r: ConfigVar<V>)
    ensures r.value == x
    ensures r.name == v.name && r.description == v.description && r.typeName == v.typeName
  {
    v.(value := x)
  }

  /** `toString()`: the rendered value, or the empty string when the
      conversion throws. */
  function ToString<V>(v: ConfigVar<V>, render: V -> Option<string>): (s: string)
    ensures render(v.value).Some? ==> s == render(v.value).value
    ensures render(v.value).None? ==> s == ""
  {
    match render(v.value)
    case Some(text) => text
    case None => ""
  }

  /** What `fromString(val)` reports, together with the variable as it is
      afterwards. */
  datatype FromStringResult<V> = FromStringResult(ok: bool, updated: ConfigVar<V>)

  /** `fromString(val)`: on a successful conversion the value is replaced and
      `true` is returned; on a throwing conversion nothing changes and
      `false` is returned. */
  function FromString<V>(v: ConfigVar<V>, text: string, parse: string -> Option<V>): (r: FromStringResult<V>)
    ensures r.ok <==> parse(text).Some?
    ensures r.ok ==> GetValue(r.updated) == parse(text).value
    ensures !r.ok ==> r.updated == v
    ensures r.updated.name == v.name && r.updated.description == v.description
    ensures r.updated.typeName == v.typeName
  {
    match parse(text)
    case Some(x) => FromStringResult(true, SetValue(v, x))
    case None => FromStringResult(false, v)
  }

  /** Setting a value and reading it back yields that value, and setting
      twice keeps only the second value. */
  lemma SetValueThenGetValue<V>(v: ConfigVar<V>, x: V, y: V)
    ensures GetValue(SetValue(v, x)) == x
    ensures SetValue(SetValue(v, x), y) == SetValue(v, y)
    ensures SetValue(v, GetValue(v)) == v
  {
  }

  /** `fromString(toString())` restores a value whenever the two conversions
      are inverse on it: text rendered from `w` and parsed into `v` gives `v`
      the value of `w`. */
  lemma FromStringOfToString<V>(v: ConfigVar<V>, w: ConfigVar<V>,
                                render: V -> Option<string>, parse: string -> Option<V>)
    requires render(w.value).Some?
    requires parse(render(w.value).value) == Some(w.value)
    ensures FromString(v, ToString(w, render), parse) == FromStringResult(true, SetValue(v, w.value))
  {
  }

  /** A second identical `fromString` call changes nothing further. */
  lemma FromStringIdempotent<V>(v: ConfigVar<V>, text: string, parse: string -> Option<V>)
    ensures var once := FromString(v, text, parse);
            FromString(once.updated, text, parse) == once
  {
  }
}
