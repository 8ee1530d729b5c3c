/** The `list_servers` argument check: a type guard over an untyped value
    that looks only at the presence and `typeof` of three keys. */
module Arguments {
  import opened Json
  import Descriptor

  /** The argument keys, in the order the outbound parameters list them. */
  const ARGUMENT_KEYS: seq<string> := ["query", "count_per_page", "offset"]

  /** The validator: a non-null `typeof`-object (so arrays pass too), whose
      `query`, when present, is a string and whose `count_per_page` and
      `offset`, when present, are numbers. No range is checked. It accepts
      exactly the values that carry the types the advertised schema declares. */
  function IsListServersArgs(args: Value): (ok: bool)
    ensures ok <==> Descriptor.HasDeclaredTypes(Descriptor.LIST_SERVERS.inputSchema, args)
  {
    DeclaredTypesByKey(args);
    if TypeOf(args) != "object" || args == Null then false
    else if Has(args, "query") && TypeOf(Get(args, "query")) != "string" then false
    else if Has(args, "count_per_page") && TypeOf(Get(args, "count_per_page")) != "number" then false
    else if Has(args, "offset") && TypeOf(Get(args, "offset")) != "number" then false
    else true
  }

  /** The advertised schema's declared types, spelt out key by key. */
  lemma DeclaredTypesByKey(v: Value)
    ensures Descriptor.HasDeclaredTypes(Descriptor.LIST_SERVERS.inputSchema, v) <==>
      && TypeOf(v) == "object" && v != Null
      && (Has(v, "query") ==> TypeOf(Get(v, "query")) == "string")
      && (Has(v, "count_per_page") ==> TypeOf(Get(v, "count_per_page")) == "number")
      && (Has(v, "offset") ==> TypeOf(Get(v, "offset")) == "number")
  {
    var props := Descriptor.LIST_SERVERS.inputSchema.properties;
    assert props[0] == ("query", Descriptor.PropertySchema("string", "Search term to filter servers", None));
    assert props[1].0 == "count_per_page" && props[1].1.jsonType == "number";
    assert props[2].0 == "offset" && props[2].1.jsonType == "number";
  }

  /** The argument type the guard narrows to: every field optional. */
  datatype ListServersArgs = ListServersArgs(query: Option<string>, countPerPage: Option<real>, offset: Option<real>)

  function OptionalEntry<T>(k: string, x: Option<T>, wrap: T -> Value): (m: map<string, Value>)
    ensures k in m <==> x.Some?
    ensures m.Keys <= {k}
    ensures x.Some? ==> m[k] == wrap(x.value)
  {
    if x.Some? then map[k := wrap(x.value)] else map[]
  }

  /** A typed argument record as the plain object a caller would send:
      absent fields are absent keys. */
  function ToValue(a: ListServersArgs): (v: Value)
    ensures v.Obj? && v.fields.Keys <= {"query", "count_per_page", "offset"}
    ensures Has(v, "query") <==> a.query.Some?
    ensures Has(v, "count_per_page") <==> a.countPerPage.Some?
    ensures Has(v, "offset") <==> a.offset.Some?
    ensures IsListServersArgs(v)
  {
    Obj(OptionalEntry("query", a.query, s => Str(s))
        + OptionalEntry("count_per_page", a.countPerPage, n => Num(n))
        + OptionalEntry("offset", a.offset, n => Num(n)))
  }

  /** The typed view of an accepted value: what the handler reads back from
      `arguments.query`, `arguments.count_per_page` and `arguments.offset`. */
  function FromValue(v: Value): (a: ListServersArgs)
    requires IsListServersArgs(v)
    ensures a.query.Some? <==> Has(v, "query")
    ensures a.query.Some? ==> Get(v, "query") == Str(a.query.value)
    ensures a.countPerPage.Some? <==> Has(v, "count_per_page")
    ensures a.countPerPage.Some? ==> Get(v, "count_per_page") == Num(a.countPerPage.value)
    ensures a.offset.Some? <==> Has(v, "offset")
    ensures a.offset.Some? ==> Get(v, "offset") == Num(a.offset.value)
  {
    ListServersArgs(
      if Has(v, "query") then Some(Get(v, "query").s) else None,
      if Has(v, "count_per_page") then Some(Get(v, "count_per_page").n) else None,
      if Has(v, "offset") then Some(Get(v, "offset").n) else None)
  }

  /** Reading a typed record back from its plain object gives the record. */
  lemma TypedRoundTrip(a: ListServersArgs)
    ensures FromValue(ToValue(a)) == a
  {
  }

  /** An accepted value and the plain object of its typed view agree on
      every argument key; other keys are all that can differ. */
  lemma ViewRoundTrip(v: Value)
    requires IsListServersArgs(v)
    ensures forall i :: 0 <= i < |ARGUMENT_KEYS| ==> Get(ToValue(FromValue(v)), ARGUMENT_KEYS[i]) == Get(v, ARGUMENT_KEYS[i])
  {
  }

  /** `null` and every value whose `typeof` is not "object" are rejected. */
  lemma RejectsNonObjects(v: Value)
    requires v.Null? || TypeOf(v) != "object"
    ensures !IsListServersArgs(v)
  {
  }

  /** A call that carries no `arguments` at all is rejected. */
  lemma MissingArgumentsRejected()
    ensures !IsListServersArgs(Undefined)
  {
  }

  /** Any object or array without the three keys is accepted: `{}`, `[]`,
      and objects with arbitrary other keys. */
  lemma AcceptsWithoutArgumentKeys(v: Value)
    requires v.Obj? || v.Arr?
    requires forall i :: 0 <= i < |ARGUMENT_KEYS| ==> !Has(v, ARGUMENT_KEYS[i])
    ensures IsListServersArgs(v)
  {
    assert !Has(v, ARGUMENT_KEYS[0]) && !Has(v, ARGUMENT_KEYS[1]) && !Has(v, ARGUMENT_KEYS[2]);
  }

  /** The declared type of each argument key. */
  function DeclaredType(k: string): (t: string)
    requires k in ARGUMENT_KEYS
    ensures t == (if k == "query" then "string" else "number")
    ensures Descriptor.Lookup(Descriptor.LIST_SERVERS.inputSchema.properties, k).Some?
    ensures Descriptor.Lookup(Descriptor.LIST_SERVERS.inputSchema.properties, k).value.jsonType == t
  {
    Descriptor.AdvertisedSchema();
    if k == "query" then "string" else "number"
  }

  /** On an object, rejection happens exactly when some argument key is
      present with a value of the wrong `typeof`; a key present with value
      `undefined` is one such case. */
  lemma RejectsExactlyWrongTypes(v: Value)
    requires v.Obj? || v.Arr?
    ensures !IsListServersArgs(v) <==>
      exists i :: 0 <= i < |ARGUMENT_KEYS| && Has(v, ARGUMENT_KEYS[i]) && TypeOf(Get(v, ARGUMENT_KEYS[i])) != DeclaredType(ARGUMENT_KEYS[i])
  {
    if !IsListServersArgs(v) {
      if Has(v, "query") && TypeOf(Get(v, "query")) != "string" {
        assert ARGUMENT_KEYS[0] == "query";
      } else if Has(v, "count_per_page") && TypeOf(Get(v, "count_per_page")) != "number" {
        assert ARGUMENT_KEYS[1] == "count_per_page";
      } else {
        assert ARGUMENT_KEYS[2] == "offset";
      }
    }
  }

  /** An argument key present with value `undefined` is rejected: its
      `typeof` is "undefined", neither "string" nor "number". */
  lemma UndefinedValueRejected(m: map<string, Value>, k: string)
    requires k in ARGUMENT_KEYS
    ensures !IsListServersArgs(Obj(m[k := Undefined]))
  {
  }

  /** Keys other than the three never change the verdict. */
  lemma ExtraKeysIgnored(m: map<string, Value>, extra: map<string, Value>)
    requires forall k :: k in extra ==> k !in ARGUMENT_KEYS
    ensures IsListServersArgs(Obj(m + extra)) == IsListServersArgs(Obj(m))
  {
  }

  /** No range is checked: every number is accepted for `count_per_page`
      (5001 and more too) and for `offset` (negative ones too). */
  lemma NoRangeCheck(count: real, offset: real)
    ensures IsListServersArgs(Obj(map["count_per_page" := Num(count), "offset" := Num(offset)]))
  {
  }

  /** Everything the advertised schema admits is accepted. */
  lemma AdmittedIsAccepted(v: Value)
    requires Descriptor.Admits(Descriptor.LIST_SERVERS.inputSchema, v)
    ensures IsListServersArgs(v)
  {
    Descriptor.AdmittedHasDeclaredTypes(Descriptor.LIST_SERVERS.inputSchema, v);
  }

  /** The converse fails twice over: the advertised maximum of 5000 is not
      enforced, and an array, which the schema's "object" excludes, passes. */
  lemma AcceptedButNotAdmitted()
    ensures IsListServersArgs(Obj(map["count_per_page" := Num(5001.0)]))
    ensures !Descriptor.Admits(Descriptor.LIST_SERVERS.inputSchema, Obj(map["count_per_page" := Num(5001.0)]))
    ensures IsListServersArgs(Arr([]))
    ensures !Descriptor.Admits(Descriptor.LIST_SERVERS.inputSchema, Arr([]))
  {
    var v := Obj(map["count_per_page" := Num(5001.0)]);
    var props := Descriptor.LIST_SERVERS.inputSchema.properties;
    assert !Descriptor.PropertiesAdmit(props[1..], v);
  }
}
