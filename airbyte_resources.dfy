/** The reconciliation policy of octavia's `apply` command: a resource
    declared in a parsed YAML file (a source or a destination) is looked up
    remotely by name, classified as absent, present or duplicated, and created
    or updated through the platform's API, whose 422 answers become
    configuration errors.

    The remote API is an input: each variant's endpoints are total functions
    from a payload to an API outcome. Every property that reads the remote
    side (`RemoteResourceOf`, `Exists`, `ResourceId`, `UpdatePayloadOf`)
    calls the search endpoint again, but the endpoint is a function of the
    payload alone: all of them see one and the same remote state.

    The payloads, `remote_resource`, `exists` and `resource_id` are Python
    properties. When a property's getter raises an AttributeError, Python
    falls back on `__getattr__` with the property's own name: the read then
    yields the YAML value declared under that name, or fails with the
    property's name in the message. `PropertyAccess` models that fallback. */
module AirbyteResources {
  import opened Wrappers

  /** The two variants of a reconciled resource. */
  datatype Kind = Source | Destination

  /** The Python class name, as it appears in attribute error messages. */
  function ClassName(kind: Kind): string {
    match kind
    case Source => "Source"
    case Destination => "Destination"
  }

  /** The field of a remote resource that holds its identifier. */
  function ResourceIdField(kind: Kind): string {
    match kind
    case Source => "source_id"
    case Destination => "destination_id"
  }

  /** A parsed YAML value. */
  datatype Value =
    | Null
    | Bool(b: bool)
    | Int(i: int)
    | Float(x: real)
    | Str(s: string)
    | List(items: seq<Value>)
    | Mapping(entries: map<string, Value>)

  /** The parsed YAML file: `definition_type`, `definition_id`,
      `resource_name`, `configuration` and anything else it declares. */
  type Config = map<string, Value>

  /** A source or destination as the API returns it (its identifier, name,
      connection configuration and other fields). */
  datatype RemoteResource = RemoteResource(fields: map<string, Value>)

  /** The answer to a search. Both variants read it through its `sources`
      list: the Destination variant does so too. */
  datatype SearchResponse = SearchResponse(sources: seq<RemoteResource>)

  /** The API client's exception, carrying the HTTP status of the rejection. */
  datatype ApiException = ApiException(status: int, reason: string)

  datatype CreatePayload = CreatePayload(kind: Kind, definitionId: Value, configuration: Value, workspaceId: string, name: Value)
  datatype SearchPayload = SearchPayload(kind: Kind, definitionId: Value, workspaceId: string, name: Value)
  datatype UpdatePayload = UpdatePayload(kind: Kind, resourceId: Value, configuration: Value, name: Value)

  /** What reading a property yields: the value its getter computed, or the
      YAML value declared under the property's name, which `__getattr__`
      returns once the getter has raised an AttributeError. */
  datatype Property<T> = Computed(value: T) | Declared(yaml: Value)

  /** One variant's API: `create_source`/`update_source`/`search_sources`
      or their destination counterparts. Each receives whatever the payload
      property yielded. */
  datatype Endpoints = Endpoints(
    create: Property<CreatePayload> -> Result<RemoteResource, ApiException>,
    update: Property<UpdatePayload> -> Result<RemoteResource, ApiException>,
    search: Property<SearchPayload> -> Result<SearchResponse, ApiException>)

  /** The API client, from which each variant builds its own API instance. */
  datatype ApiClient = ApiClient(sourceApi: Endpoints, destinationApi: Endpoints)

  /** What the operations raise. */
  datatype Error =
    | DuplicateRessourceError(message: string)
    | InvalidConfigurationError(message: string)
    | Api(exception: ApiException)
    | AttributeError(message: string)
    | KeyError(key: string)
    | UnboundLocalError(message: string)

  const DuplicateMessage := "Two or more ressource exist with the same name"
  const InvalidConfigurationMessage := "Your configuration is invalid, please make sure it complies with the connector definitions."
  /** The `UnboundLocalError` message in the wording of Python 3.10 and
      earlier; Python 3.11 says "cannot access local variable
      'AirbyteResource' where it is not associated with a value". */
  const UnboundResourceMessage := "local variable 'AirbyteResource' referenced before assignment"
  const UnprocessableEntity := 422

  /** The names of the properties, which a YAML file may shadow through the fallback. */
  const PropertyNames: set<string> := {"create_payload", "search_payload", "update_payload", "remote_resource", "exists", "resource_id"}

  /** A reconciler: set once at construction and never updated. */
  datatype Resource = Resource(kind: Kind, workspaceId: string, yamlConfig: Config, apiInstance: Endpoints)

  /** The API instance a variant builds from the client. */
  function ApiFor(kind: Kind, client: ApiClient): Endpoints {
    match kind
    case Source => client.sourceApi
    case Destination => client.destinationApi
  }

  /** The message of the error raised for an attribute absent from the YAML file. */
  function InvalidAttributeMessage(kind: Kind, name: string): (m: string)
    ensures |m| == |ClassName(kind)| + 1 + |name| + |" is invalid."|
    ensures m[..|ClassName(kind)|] == ClassName(kind)
    ensures m[|ClassName(kind)|] == '.'
    ensures m[|ClassName(kind)| + 1..|ClassName(kind)| + 1 + |name|] == name
  {
    ClassName(kind) + "." + name + " is invalid."
  }

  /** The error raised when `name` is read but absent from the YAML file. */
  function InvalidAttribute(r: Resource, name: string): Error {
    AttributeError(InvalidAttributeMessage(r.kind, name))
  }

  /** Attribute passthrough (`__getattr__`): a YAML key read as an attribute of the resource. */
  function GetAttr(r: Resource, name: string): (v: Result<Value, Error>)
    ensures v.Ok? <==> name in r.yamlConfig
    ensures v.Ok? ==> v.value == r.yamlConfig[name]
    ensures v.Err? ==> v.error == InvalidAttribute(r, name)
  {
    if name in r.yamlConfig then Ok(r.yamlConfig[name])
    else Err(InvalidAttribute(r, name))
  }

  /** `p` is what `__getattr__(name)` gives when a getter has raised an AttributeError. */
  ghost predicate FallsBack<T>(r: Resource, name: string, p: Result<Property<T>, Error>) {
    (p.Ok? <==> name in r.yamlConfig) &&
    (p.Ok? ==> p.value == Declared(r.yamlConfig[name])) &&
    (p.Err? ==> p.error == InvalidAttribute(r, name))
  }

  /** Reading the property `name` whose getter produced `getter`: its value,
      a non-attribute error unchanged, or the `__getattr__` fallback. */
  function PropertyAccess<T>(r: Resource, name: string, getter: Result<T, Error>): (p: Result<Property<T>, Error>)
    ensures getter.Ok? ==> p == Ok(Computed(getter.value))
    ensures getter.Err? && !getter.error.AttributeError? ==> p == Err(getter.error)
    ensures getter.Err? && getter.error.AttributeError? ==> FallsBack(r, name, p)
  {
    match getter
    case Ok(v) => Ok(Computed(v))
    case Err(e) =>
      if !e.AttributeError? then Err(e)
      else match GetAttr(r, name)
        case Ok(declared) => Ok(Declared(declared))
        case Err(missing) => Err(missing)
  }

  /** The getter of `create_payload`: definition id, configuration, workspace id and name. */
  function BuildCreatePayload(r: Resource): (p: Result<CreatePayload, Error>)
    ensures p.Ok? <==> "definition_id" in r.yamlConfig && "configuration" in r.yamlConfig && "resource_name" in r.yamlConfig
    ensures p.Ok? ==> p.value == CreatePayload(r.kind, r.yamlConfig["definition_id"], r.yamlConfig["configuration"],
                                               r.workspaceId, r.yamlConfig["resource_name"])
    ensures p.Err? ==> p.error.AttributeError?
  {
    var definitionId :- GetAttr(r, "definition_id");
    var configuration :- GetAttr(r, "configuration");
    var name :- GetAttr(r, "resource_name");
    Ok(CreatePayload(r.kind, definitionId, configuration, r.workspaceId, name))
  }

  /** `create_payload`: the built payload when the three keys are declared,
      otherwise the fallback on `create_payload`. */
  function CreatePayloadOf(r: Resource): (p: Result<Property<CreatePayload>, Error>)
    ensures "definition_id" in r.yamlConfig && "configuration" in r.yamlConfig && "resource_name" in r.yamlConfig ==>
      p == Ok(Computed(CreatePayload(r.kind, r.yamlConfig["definition_id"], r.yamlConfig["configuration"],
                                     r.workspaceId, r.yamlConfig["resource_name"])))
    ensures !("definition_id" in r.yamlConfig && "configuration" in r.yamlConfig && "resource_name" in r.yamlConfig) ==>
      FallsBack(r, "create_payload", p)
  {
    PropertyAccess(r, "create_payload", BuildCreatePayload(r))
  }

  /** The getter of `search_payload`: definition id, workspace id and name. */
  function BuildSearchPayload(r: Resource): (p: Result<SearchPayload, Error>)
    ensures p.Ok? <==> "definition_id" in r.yamlConfig && "resource_name" in r.yamlConfig
    ensures p.Ok? ==> p.value == SearchPayload(r.kind, r.yamlConfig["definition_id"], r.workspaceId, r.yamlConfig["resource_name"])
    ensures p.Err? ==> p.error.AttributeError?
  {
    var definitionId :- GetAttr(r, "definition_id");
    var name :- GetAttr(r, "resource_name");
    Ok(SearchPayload(r.kind, definitionId, r.workspaceId, name))
  }

  /** `search_payload`: the built payload when both keys are declared,
      otherwise the fallback on `search_payload`. */
  function SearchPayloadOf(r: Resource): (p: Result<Property<SearchPayload>, Error>)
    ensures "definition_id" in r.yamlConfig && "resource_name" in r.yamlConfig ==>
      p == Ok(Computed(SearchPayload(r.kind, r.yamlConfig["definition_id"], r.workspaceId, r.yamlConfig["resource_name"])))
    ensures !("definition_id" in r.yamlConfig && "resource_name" in r.yamlConfig) ==> FallsBack(r, "search_payload", p)
  {
    PropertyAccess(r, "search_payload", BuildSearchPayload(r))
  }

  /** `_search`: one call of the variant's search endpoint; its exceptions propagate unchanged. */
  function Search(r: Resource): (s: Result<SearchResponse, Error>)
    ensures SearchPayloadOf(r).Err? ==> s == Err(SearchPayloadOf(r).error) && s.error.AttributeError?
    ensures SearchPayloadOf(r).Ok? ==> match r.apiInstance.search(SearchPayloadOf(r).value)
      case Ok(response) => s == Ok(response)
      case Err(e) => s == Err(Api(e))
  {
    var payload :- SearchPayloadOf(r);
    match r.apiInstance.search(payload)
    case Ok(response) => Ok(response)
    case Err(e) => Err(Api(e))
  }

  /** Match-count classification of a search's results:
      several is a duplicate error, one is the remote resource, none is absent. */
  function ClassifyMatches(matches: seq<RemoteResource>): (c: Result<Option<RemoteResource>, Error>)
    ensures c.Err? <==> |matches| > 1
    ensures c.Err? ==> c.error == DuplicateRessourceError(DuplicateMessage)
    ensures c == Ok(None) <==> |matches| == 0
    ensures c.Ok? && c.value.Some? <==> |matches| == 1
    ensures c.Ok? && c.value.Some? ==> c.value.value == matches[0]
  {
    if |matches| > 1 then Err(DuplicateRessourceError(DuplicateMessage))
    else if |matches| == 1 then Ok(Some(matches[0]))
    else Ok(None)
  }

  /** `remote_resource`: a fresh search, classified; an AttributeError from
      the search falls back on `remote_resource`. */
  function RemoteResourceOf(r: Resource): (rr: Result<Property<Option<RemoteResource>>, Error>)
    ensures Search(r).Ok? && |Search(r).value.sources| > 1 ==> rr == Err(DuplicateRessourceError(DuplicateMessage))
    ensures Search(r).Ok? && |Search(r).value.sources| == 1 ==> rr == Ok(Computed(Some(Search(r).value.sources[0])))
    ensures Search(r).Ok? && |Search(r).value.sources| == 0 ==> rr == Ok(Computed(None))
    ensures Search(r).Err? && Search(r).error.Api? ==> rr == Err(Search(r).error)
    ensures Search(r).Err? && Search(r).error.AttributeError? ==> FallsBack(r, "remote_resource", rr)
  {
    var getter := match Search(r)
      case Ok(response) => ClassifyMatches(response.sources)
      case Err(e) => Err(e);
    PropertyAccess(r, "remote_resource", getter)
  }

  /** Python truthiness of a YAML value. */
  predicate YamlTruthy(v: Value) {
    match v
    case Null => false
    case Bool(b) => b
    case Int(i) => i != 0
    case Float(x) => x != 0.0
    case Str(s) => s != ""
    case List(items) => items != []
    case Mapping(entries) => entries != map[]
  }

  /** Truthiness of `remote_resource`: a found resource is true, `None` false. */
  predicate RemoteTruthy(remote: Property<Option<RemoteResource>>) {
    match remote
    case Computed(found) => found.Some?
    case Declared(v) => YamlTruthy(v)
  }

  /** `exists`: whether `remote_resource` is truthy; an AttributeError from
      it falls back on `exists`. */
  function Exists(r: Resource): (e: Result<Property<bool>, Error>)
    ensures RemoteResourceOf(r).Ok? ==> e == Ok(Computed(RemoteTruthy(RemoteResourceOf(r).value)))
    ensures RemoteResourceOf(r).Err? && !RemoteResourceOf(r).error.AttributeError? ==> e == Err(RemoteResourceOf(r).error)
    ensures RemoteResourceOf(r).Err? && RemoteResourceOf(r).error.AttributeError? ==> FallsBack(r, "exists", e)
  {
    var getter := match RemoteResourceOf(r)
      case Ok(remote) => Ok(RemoteTruthy(remote))
      case Err(err) => Err(err);
    PropertyAccess(r, "exists", getter)
  }

  /** `.get(field)` on a remote resource: the field's value, or `None` when absent. */
  function GetField(resource: RemoteResource, field: string): (v: Value)
    ensures field in resource.fields ==> v == resource.fields[field]
    ensures field !in resource.fields ==> v == Null
  {
    if field in resource.fields then resource.fields[field] else Null
  }

  /** Python's name for the type of a YAML value. */
  function TypeName(v: Value): string {
    match v
    case Null => "NoneType"
    case Bool(_) => "bool"
    case Int(_) => "int"
    case Float(_) => "float"
    case Str(_) => "str"
    case List(_) => "list"
    case Mapping(_) => "dict"
  }

  /** `remote_resource.get(field)`: a found resource's field, a declared
      mapping's entry (`None` when absent); `None` and every other declared
      value have no `get` and raise an AttributeError. */
  function RemoteGet(remote: Property<Option<RemoteResource>>, field: string): (v: Result<Value, Error>)
    ensures v.Ok? <==> (remote.Computed? && remote.value.Some?) || (remote.Declared? && remote.yaml.Mapping?)
    ensures remote.Computed? && remote.value.Some? ==> v == Ok(GetField(remote.value.value, field))
    ensures remote.Declared? && remote.yaml.Mapping? ==> v == Ok(GetField(RemoteResource(remote.yaml.entries), field))
    ensures v.Err? ==> v.error.AttributeError?
  {
    match remote
    case Computed(None) => Err(AttributeError("'NoneType' object has no attribute 'get'"))
    case Computed(Some(found)) => Ok(GetField(found, field))
    case Declared(Mapping(entries)) => Ok(GetField(RemoteResource(entries), field))
    case Declared(v) => Err(AttributeError("'" + TypeName(v) + "' object has no attribute 'get'"))
  }

  /** `resource_id`: the found resource's `source_id`/`destination_id`; when
      `.get` raises (no remote resource, or a declared `remote_resource` that
      is not a mapping) it falls back on `resource_id`. */
  function ResourceId(r: Resource): (id: Result<Property<Value>, Error>)
    ensures RemoteResourceOf(r).Ok? && RemoteGet(RemoteResourceOf(r).value, ResourceIdField(r.kind)).Ok? ==>
      id == Ok(Computed(RemoteGet(RemoteResourceOf(r).value, ResourceIdField(r.kind)).value))
    ensures RemoteResourceOf(r).Ok? && RemoteGet(RemoteResourceOf(r).value, ResourceIdField(r.kind)).Err? ==>
      FallsBack(r, "resource_id", id)
    ensures RemoteResourceOf(r).Err? && !RemoteResourceOf(r).error.AttributeError? ==> id == Err(RemoteResourceOf(r).error)
    ensures RemoteResourceOf(r).Err? && RemoteResourceOf(r).error.AttributeError? ==> FallsBack(r, "resource_id", id)
  {
    var getter := match RemoteResourceOf(r)
      case Ok(remote) => RemoteGet(remote, ResourceIdField(r.kind))
      case Err(e) => Err(e);
    PropertyAccess(r, "resource_id", getter)
  }

  /** The value read from a property whose values are YAML values either way. */
  function ValueOf(p: Property<Value>): Value {
    match p
    case Computed(v) => v
    case Declared(v) => v
  }

  /** The getter of `update_payload`: the remote id, then the local configuration and name. */
  function BuildUpdatePayload(r: Resource): (p: Result<UpdatePayload, Error>)
    ensures ResourceId(r).Err? ==> p == Err(ResourceId(r).error)
    ensures ResourceId(r).Ok? ==> (p.Ok? <==> "configuration" in r.yamlConfig && "resource_name" in r.yamlConfig)
    ensures ResourceId(r).Ok? && p.Ok? ==>
      p.value == UpdatePayload(r.kind, ValueOf(ResourceId(r).value), r.yamlConfig["configuration"], r.yamlConfig["resource_name"])
    ensures ResourceId(r).Ok? && p.Err? ==> p.error.AttributeError?
  {
    var id :- ResourceId(r);
    var configuration :- GetAttr(r, "configuration");
    var name :- GetAttr(r, "resource_name");
    Ok(UpdatePayload(r.kind, ValueOf(id), configuration, name))
  }

  /** `update_payload`: the built payload, a non-attribute error of
      `resource_id` unchanged, or the fallback on `update_payload`. */
  function UpdatePayloadOf(r: Resource): (p: Result<Property<UpdatePayload>, Error>)
    ensures BuildUpdatePayload(r).Ok? ==> p == Ok(Computed(BuildUpdatePayload(r).value))
    ensures ResourceId(r).Err? && !ResourceId(r).error.AttributeError? ==> p == Err(ResourceId(r).error)
    ensures BuildUpdatePayload(r).Err? && BuildUpdatePayload(r).error.AttributeError? ==> FallsBack(r, "update_payload", p)
  {
    PropertyAccess(r, "update_payload", BuildUpdatePayload(r))
  }

  /** `_create_or_update`: the operation's result on success; a 422 becomes
      `InvalidConfigurationError`; any other exception is re-raised unchanged. */
  function CreateOrUpdate<P>(operation: P -> Result<RemoteResource, ApiException>, payload: P): (res: Result<RemoteResource, Error>)
    ensures operation(payload).Ok? ==> res == Ok(operation(payload).value)
    ensures operation(payload).Err? && operation(payload).error.status == UnprocessableEntity ==>
      res == Err(InvalidConfigurationError(InvalidConfigurationMessage))
    ensures operation(payload).Err? && operation(payload).error.status != UnprocessableEntity ==>
      res == Err(Api(operation(payload).error))
  {
    match operation(payload)
    case Ok(created) => Ok(created)
    case Err(e) =>
      if e.status == UnprocessableEntity then Err(InvalidConfigurationError(InvalidConfigurationMessage))
      else Err(Api(e))
  }

  /** `create`. */
  function Create(r: Resource): (res: Result<RemoteResource, Error>)
    ensures CreatePayloadOf(r).Err? ==> res == Err(CreatePayloadOf(r).error)
    ensures CreatePayloadOf(r).Ok? ==> res == CreateOrUpdate(r.apiInstance.create, CreatePayloadOf(r).value)
  {
    var payload :- CreatePayloadOf(r);
    CreateOrUpdate(r.apiInstance.create, payload)
  }

  /** `update`. */
  function Update(r: Resource): (res: Result<RemoteResource, Error>)
    ensures UpdatePayloadOf(r).Err? ==> res == Err(UpdatePayloadOf(r).error)
    ensures UpdatePayloadOf(r).Ok? ==> res == CreateOrUpdate(r.apiInstance.update, UpdatePayloadOf(r).value)
  {
    var payload :- UpdatePayloadOf(r);
    CreateOrUpdate(r.apiInstance.update, payload)
  }

  /** `factory`, from an already parsed YAML file: `definition_type` selects
      the variant and its API. An unknown type leaves the class variable unassigned. */
  function Factory(client: ApiClient, workspaceId: string, yamlConfig: Config): (res: Result<Resource, Error>)
    ensures "definition_type" !in yamlConfig ==> res.Err? && res.error == KeyError("definition_type")
    ensures res.Ok? <==> "definition_type" in yamlConfig && yamlConfig["definition_type"] in {Str("source"), Str("destination")}
    ensures res.Ok? ==> res.value.kind == (if yamlConfig["definition_type"] == Str("source") then Source else Destination)
    ensures res.Ok? ==> res.value.workspaceId == workspaceId && res.value.yamlConfig == yamlConfig
    ensures res.Ok? ==> res.value.apiInstance == ApiFor(res.value.kind, client)
    ensures "definition_type" in yamlConfig && !res.Ok? ==> res.error == UnboundLocalError(UnboundResourceMessage)
  {
    if "definition_type" !in yamlConfig then Err(KeyError("definition_type"))
    else
      var definitionType := yamlConfig["definition_type"];
      if definitionType == Str("source") then
        Ok(Resource(Source, workspaceId, yamlConfig, ApiFor(Source, client)))
      else if definitionType == Str("destination") then
        Ok(Resource(Destination, workspaceId, yamlConfig, ApiFor(Destination, client)))
      else
        Err(UnboundLocalError(UnboundResourceMessage))
  }

  // ---------------------------------------------------------------------
  // Properties relating several operations

  /** The YAML file declares every key the payloads read and shadows no property. */
  predicate WellDeclared(r: Resource) {
    "definition_id" in r.yamlConfig && "configuration" in r.yamlConfig && "resource_name" in r.yamlConfig &&
    forall name :: name in PropertyNames ==> name !in r.yamlConfig
  }

  /** `exists` is decided by the number of matches of one search. */
  lemma ExistsByMatchCount(r: Resource, matches: seq<RemoteResource>)
    requires Search(r) == Ok(SearchResponse(matches))
    ensures |matches| > 1 ==> Exists(r) == Err(DuplicateRessourceError(DuplicateMessage))
    ensures |matches| <= 1 ==> Exists(r) == Ok(Computed(|matches| == 1))
  {
  }

  /** When the YAML file shadows no property, a search that succeeds is the
      only way for `exists` to answer, and it is true iff there was one match. */
  lemma ExistsAnswersOnlyAfterSearch(r: Resource)
    requires forall name :: name in PropertyNames ==> name !in r.yamlConfig
    ensures Exists(r).Ok? ==> Search(r).Ok? && |Search(r).value.sources| <= 1
    ensures Exists(r) == Ok(Computed(true)) <==> Search(r).Ok? && |Search(r).value.sources| == 1
  {
  }

  /** A key missing from a YAML file that shadows no property is reported
      under the name of the property that read it, not under its own. */
  lemma MissingKeyNamesTheProperty(r: Resource)
    requires "definition_id" !in r.yamlConfig
    requires forall name :: name in PropertyNames ==> name !in r.yamlConfig
    ensures Create(r) == Err(InvalidAttribute(r, "create_payload"))
    ensures Exists(r) == Err(InvalidAttribute(r, "exists"))
    ensures Update(r) == Err(InvalidAttribute(r, "update_payload"))
  {
  }

  /** With no match, `exists` is false and `create` sends exactly the declared
      definition id, configuration, workspace and name. */
  lemma CreateWhenAbsent(r: Resource)
    requires WellDeclared(r)
    requires Search(r) == Ok(SearchResponse([]))
    ensures Exists(r) == Ok(Computed(false))
    ensures Create(r) == CreateOrUpdate(r.apiInstance.create,
      Computed(CreatePayload(r.kind, r.yamlConfig["definition_id"], r.yamlConfig["configuration"], r.workspaceId, r.yamlConfig["resource_name"])))
  {
  }

  /** With exactly one match, `exists` is true and `update` carries that match's identifier. */
  lemma UpdateUsesRemoteId(r: Resource, match0: RemoteResource)
    requires WellDeclared(r)
    requires Search(r) == Ok(SearchResponse([match0]))
    ensures Exists(r) == Ok(Computed(true))
    ensures UpdatePayloadOf(r) == Ok(Computed(UpdatePayload(r.kind, GetField(match0, ResourceIdField(r.kind)),
                                                            r.yamlConfig["configuration"], r.yamlConfig["resource_name"])))
    ensures Update(r) == CreateOrUpdate(r.apiInstance.update, UpdatePayloadOf(r).value)
  {
  }

  /** With no match, `resource_id` falls back on the YAML file: a declared
      `resource_id` becomes the update's id, otherwise `update_payload` is
      reported invalid (unless the file declares it). */
  lemma UpdateWithoutMatch(r: Resource)
    requires "definition_id" in r.yamlConfig && "configuration" in r.yamlConfig && "resource_name" in r.yamlConfig
    requires Search(r) == Ok(SearchResponse([]))
    ensures "resource_id" in r.yamlConfig ==>
      UpdatePayloadOf(r) == Ok(Computed(UpdatePayload(r.kind, r.yamlConfig["resource_id"],
                                                      r.yamlConfig["configuration"], r.yamlConfig["resource_name"])))
    ensures "resource_id" !in r.yamlConfig ==> FallsBack(r, "update_payload", UpdatePayloadOf(r))
  {
  }

  /** Duplicates stop an update before it reaches the API. */
  lemma UpdateRefusesDuplicates(r: Resource, matches: seq<RemoteResource>)
    requires Search(r) == Ok(SearchResponse(matches))
    requires |matches| > 1
    ensures Update(r) == Err(DuplicateRessourceError(DuplicateMessage))
  {
  }

  /** A 422 from the create or update endpoint never leaks out as a raw API
      exception. `update` first searches (through `resource_id`), and a 422
      from that search is not translated: it is the only raw 422 `update` raises. */
  lemma No422Leaks(r: Resource)
    ensures Create(r).Err? && Create(r).error.Api? ==> Create(r).error.exception.status != UnprocessableEntity
    ensures Update(r).Err? && Update(r).error.Api? && Update(r).error.exception.status == UnprocessableEntity ==>
      Search(r) == Err(Update(r).error)
  {
  }
}
