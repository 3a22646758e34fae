/** Binding upstream tools: the schema advertised with an added "org"
    argument, the arguments rewritten before the upstream call, and the
    handlers that authorize, resolve a datasource and call upstream. */
module ToolBinding {
  import opened Prelude

  const ORG_ARG := "org"
  const DATASOURCE_UID_ARG := "datasourceUid"
  const ORG_ARG_DESCRIPTION := "Organization — either the GrafanaOrganization CR name or its display name. See list_orgs."
  const DATASOURCE_UID_HINT :=
    "Optional datasource UID; default the org's first of this type, usually gs-{kind} (all tenants). "
    + "One tenant: gs-{kind}-{tenant}. See list_datasources."

  // ------------------------------------------------------- JSON on the heap

  datatype Json = JString(s: string) | JObject(o: JsonObject) | JOther(token: int)

  /** A Go map[string]any: shared by reference, changed in place. */
  class JsonObject {
    var fields: map<string, Json>

    constructor (fields: map<string, Json>)
      ensures this.fields == fields
    {
      this.fields := fields;
    }
  }

  /** Undecoded arguments: what decoding them into a map would find. */
  datatype RawJson = Malformed | NullLiteral | ObjectLiteral(fields: map<string, Json>)

  datatype Arguments = NoArguments | Fields(ref: JsonObject) | RawMessage(raw: RawJson) | OtherShape

  /** The copy of a request that a handler edits. */
  class CallToolRequest {
    var arguments: Arguments

    constructor (arguments: Arguments)
      ensures this.arguments == arguments
    {
      this.arguments := arguments;
    }
  }

  function StringField(a: Arguments, key: string): Option<string>
    reads if a.Fields? then {a.ref} else {}
  {
    if a.Fields? && key in a.ref.fields && a.ref.fields[key].JString? then Some(a.ref.fields[key].s) else None
  }

  /** GetString with default "". */
  function StringOrEmpty(a: Arguments, key: string): string
    reads if a.Fields? then {a.ref} else {}
  {
    if StringField(a, key).Some? then StringField(a, key).value else ""
  }

  /** The argument object a request carries, if its arguments have one. */
  function Content(a: Arguments): Option<map<string, Json>>
    reads if a.Fields? then {a.ref} else {}
  {
    match a
    case NoArguments => Some(map[])
    case Fields(ref) => Some(ref.fields)
    case RawMessage(ObjectLiteral(m)) => Some(m)
    case RawMessage(NullLiteral) => Some(map[])
    case _ => None
  }

  /** editArgs: the edit is applied to a copy in a new object; the object the
      request pointed to is not among those it may modify. */
  method EditArgs(req: CallToolRequest, edit: map<string, Json> -> map<string, Json>) returns (ok: bool)
    modifies req
    ensures ok == old(Content(req.arguments)).Some?
    ensures ok ==> req.arguments.Fields? && fresh(req.arguments.ref)
                   && req.arguments.ref.fields == edit(old(Content(req.arguments)).value)
    ensures !ok ==> req.arguments == old(req.arguments)
  {
    var next := new JsonObject(map[]);
    match req.arguments {
      case NoArguments =>
      case Fields(ref) =>
        assert map[] + ref.fields == ref.fields;
        next.fields := next.fields + ref.fields;
      case RawMessage(ObjectLiteral(m)) => next.fields := m;
      case RawMessage(NullLiteral) =>
      case RawMessage(Malformed) => return false;
      case OtherShape => return false;
    }
    next.fields := edit(next.fields);
    req.arguments := Fields(next);
    return true;
  }

  /** injectArg. Assigning into the nil map that a literal null decodes to
      would panic, so callers must not pass one. */
  method InjectArg(req: CallToolRequest, key: string, value: Json) returns (ok: bool)
    requires req.arguments != RawMessage(NullLiteral)
    modifies req
    ensures ok == old(Content(req.arguments)).Some?
    ensures ok ==> req.arguments.Fields? && fresh(req.arguments.ref)
                   && req.arguments.ref.fields == old(Content(req.arguments)).value[key := value]
    ensures !ok ==> req.arguments == old(req.arguments)
  {
    ok := EditArgs(req, (m: map<string, Json>) => m[key := value]);
  }

  method StripOrgArg(req: CallToolRequest) returns (ok: bool)
    modifies req
    ensures ok == old(Content(req.arguments)).Some?
    ensures ok ==> req.arguments.Fields? && fresh(req.arguments.ref)
                   && req.arguments.ref.fields == old(Content(req.arguments)).value - {ORG_ARG}
    ensures !ok ==> req.arguments == old(req.arguments)
  {
    ok := EditArgs(req, (m: map<string, Json>) => m - {ORG_ARG});
  }

  // -------------------------------------------------- the advertised schema

  datatype Schema = Schema(properties: JsonObject, required: seq<string>)

  datatype ToolDef = Structured(schema: Schema) | RawSchema(decoded: Option<Schema>)

  datatype Advertised = Panics | Tool(schema: Schema)

  ghost predicate DemotedFrom(now: Json, was: Json)
    reads if was.JObject? then {was.o} else {}
    reads if now.JObject? then {now.o} else {}
  {
    if was.JObject? then now.JObject? && now.o.fields == was.o.fields["description" := JString(DATASOURCE_UID_HINT)]
    else now == was
  }

  method RequiredWithOrg(required: seq<string>, demoteArg: string) returns (req: seq<string>)
    ensures req == [ORG_ARG] + Filter((r: string) => r != demoteArg, required)
  {
    req := [ORG_ARG];
    for i := 0 to |required|
      invariant req == [ORG_ARG] + Filter((r: string) => r != demoteArg, required[..i])
    {
      FilterAppend((r: string) => r != demoteArg, required[..i], required[i]);
      assert required[..i + 1] == required[..i] + [required[i]];
      if required[i] == demoteArg {
        continue;
      }
      req := req + [required[i]];
    }
    assert required[..|required|] == required;
  }

  /** withOrg. It panics exactly on an undecodable raw schema or one that
      already declares "org"; otherwise the result is built in new objects, and
      nothing reachable from the input may be modified. */
  method WithOrg(t: ToolDef, demoteArg: string) returns (out: Advertised)
    ensures out.Panics? <==>
      || t == RawSchema(None)
      || (t.Structured? && ORG_ARG in t.schema.properties.fields)
      || (t.RawSchema? && t.decoded.Some? && ORG_ARG in t.decoded.value.properties.fields)
    ensures out.Tool? ==>
      var up := if t.Structured? then t.schema else t.decoded.value;
      && fresh(out.schema.properties)
      && out.schema.properties.fields.Keys == up.properties.fields.Keys + {ORG_ARG}
      && (forall k | k in up.properties.fields && k != demoteArg :: out.schema.properties.fields[k] == up.properties.fields[k])
      && (demoteArg != "" && demoteArg in up.properties.fields ==>
            DemotedFrom(out.schema.properties.fields[demoteArg], up.properties.fields[demoteArg]))
      && (var org := out.schema.properties.fields[ORG_ARG];
          org.JObject? && org.o.fields == map["type" := JString("string"), "description" := JString(ORG_ARG_DESCRIPTION)])
      && out.schema.required == [ORG_ARG] + Filter((r: string) => r != demoteArg, up.required)
  {
    if t == RawSchema(None) {
      return Panics;
    }
    var up := if t.Structured? then t.schema else t.decoded.value;
    var props := new JsonObject(map[]);
    props.fields := props.fields + up.properties.fields;
    if demoteArg != "" && demoteArg in props.fields && props.fields[demoteArg].JObject? {
      var cur := props.fields[demoteArg].o;
      var merged := new JsonObject(cur.fields);
      merged.fields := merged.fields["description" := JString(DATASOURCE_UID_HINT)];
      props.fields := props.fields[demoteArg := JObject(merged)];
    }
    if ORG_ARG in props.fields {
      return Panics;
    }
    var orgProp := new JsonObject(map["type" := JString("string"), "description" := JString(ORG_ARG_DESCRIPTION)]);
    props.fields := props.fields[ORG_ARG := JObject(orgProp)];
    var req := RequiredWithOrg(up.required, demoteArg);
    return Tool(Schema(props, req));
  }
}
