/** The process-wide registry `Config::s_data` and its two `lookup`
    overloads (mocker/config.h:345-392). The registry is an immutable map
    from the name a variable was registered under to the variable; an
    operation that changes it returns the new map. */
module Config {
  import opened Wrappers
  import opened ConfigNames
  import opened ConfigVars

  type Registry<V> = map<string, ConfigVar<V>>

  /** The `std::invalid_argument(name)` thrown for a malformed new name. */
  datatype LookupError = InvalidArgument(name: string)

  /** What `lookup(name, default, description)` yields: `Ok(Some(v))` for the
      returned pointer, `Ok(None)` for `nullptr`, `Err` for the exception;
      `data` is the registry afterwards. */
  datatype LookupResult<V> = LookupResult(outcome: Result<Option<ConfigVar<V>>, LookupError>, data: Registry<V>)

  /** Every key is a valid name and equals the name its variable reports. */
  predicate WellFormed<V>(data: Registry<V>) {
    forall k :: k in data ==> ValidName(k) && data[k].name == k
  }

  /** The registry before any variable is registered. */
  function Empty<V>(): (data: Registry<V>)
    ensures |data| == 0
    ensures WellFormed(data)
  {
    map[]
  }

  /** `lookup<T>(name, default_value, description)`: lookup-or-create. The
      checks run in the order of mocker/config.h:354-374: an existing entry is returned if its
      type matches and refused with `nullptr` if not, before the name is
      validated; only a new, valid name adds an entry. */
  function LookupOrCreate<V>(data: Registry<V>, name: string, typeName: TypeName, default: V,
                             description: string := ""): (r: LookupResult<V>)
    // an existing entry of the requested type comes back unchanged
    ensures name in data && data[name].typeName == typeName ==>
              r.outcome == Ok(Some(data[name])) && r.data == data
    // an existing entry of another type gives a null pointer
    ensures name in data && data[name].typeName != typeName ==>
              r.outcome == Ok(None) && r.data == data
    // a new name with a character outside the alphabet throws and inserts nothing
    ensures name !in data && (exists i :: 0 <= i < |name| && name[i] !in Allowed) ==>
              r.outcome == Err(InvalidArgument(name)) && r.data == data
    // a new valid name gets exactly one fresh entry holding the default
    ensures name !in data && ValidName(name) ==>
              && r.data.Keys == data.Keys + {name}
              && (forall k :: k in data ==> r.data[k] == data[k])
              && r.data[name].name == name
              && r.data[name].typeName == typeName
              && r.data[name].value == default
              && r.data[name].description == description
              && r.outcome == Ok(Some(r.data[name]))
  {
    if name in data then
      if data[name].typeName == typeName then LookupResult(Ok(Some(data[name])), data)
      else LookupResult(Ok(None), data)
    else if FindFirstNotOf(name, Allowed).Some? then
      LookupResult(Err(InvalidArgument(name)), data)
    else
      ValidNameHasNoUpper(name);
      var v := NewConfigVar(name, typeName, default, description);
      LookupResult(Ok(Some(v)), data[name := v])
  }

  /** `lookup<T>(name)`: a pure query. It yields the entry when the name is
      registered with the requested type and `nullptr` otherwise; it has no
      registry result because it never inserts. */
  function Lookup<V>(data: Registry<V>, name: string, typeName: TypeName): (r: Option<ConfigVar<V>>)
    ensures r.Some? <==> name in data && data[name].typeName == typeName
    ensures r.Some? ==> r.value == data[name]
  {
    if name !in data then None
    else if data[name].typeName == typeName then Some(data[name])
    else None
  }

  /** Every `lookup` with a default keeps the registry well formed. */
  lemma LookupOrCreatePreservesWellFormed<V>(data: Registry<V>, name: string, typeName: TypeName,
                                            default: V, description: string)
    requires WellFormed(data)
    ensures WellFormed(LookupOrCreate(data, name, typeName, default, description).data)
  {
  }

  /** Updating a registered variable in place through `fromString` keeps the
      registry well formed, since a variable's name never changes. */
  lemma FromStringPreservesWellFormed<V>(data: Registry<V>, name: string, text: string,
                                        parse: string -> Option<V>)
    requires WellFormed(data)
    requires name in data
    ensures WellFormed(data[name := FromString(data[name], text, parse).updated])
  {
  }

  /** Repeating a `lookup` with a default changes nothing: the second call
      returns what the first returned and leaves the registry the first
      produced, whatever branch the first call took. */
  lemma LookupOrCreateIdempotent<V>(data: Registry<V>, name: string, typeName: TypeName,
                                   default: V, description: string)
    ensures var first := LookupOrCreate(data, name, typeName, default, description);
            var second := LookupOrCreate(first.data, name, typeName, default, description);
            second == first
  {
  }

  /** Once a `lookup` with a default has returned a variable, the plain
      `lookup` finds that same variable. */
  lemma LookupAfterLookupOrCreate<V>(data: Registry<V>, name: string, typeName: TypeName,
                                    default: V, description: string)
    ensures var r := LookupOrCreate(data, name, typeName, default, description);
            r.outcome.Ok? && r.outcome.value.Some? ==>
              Lookup(r.data, name, typeName) == r.outcome.value
  {
  }

  /** In a well-formed registry a name holding an upper-case letter is never
      found, so a `lookup` with a default always throws on it: callers have to
      pass names already in lower case. */
  lemma UppercaseNameRejected<V>(data: Registry<V>, name: string, typeName: TypeName,
                                default: V, description: string)
    requires WellFormed(data)
    requires exists i :: 0 <= i < |name| && IsUpper(name[i])
    ensures Lookup(data, name, typeName).None?
    ensures LookupOrCreate(data, name, typeName, default, description) ==
              LookupResult(Err(InvalidArgument(name)), data)
  {
    var i :| 0 <= i < |name| && IsUpper(name[i]);
    AllowedIsNameChars(name[i]);
  }

  /** Lookups agree with the key they were made under: in a well-formed
      registry, whatever `lookup` returns reports exactly that name. */
  lemma LookupReturnsNamedVariable<V>(data: Registry<V>, name: string, typeName: TypeName,
                                     default: V, description: string)
    requires WellFormed(data)
    ensures var r := LookupOrCreate(data, name, typeName, default, description);
            r.outcome.Ok? && r.outcome.value.Some? ==>
              r.outcome.value.value.name == name && r.outcome.value.value.typeName == typeName
    ensures Lookup(data, name, typeName).Some? ==> Lookup(data, name, typeName).value.name == name
  {
  }
}
