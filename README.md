# Airbyte: octavia resource reconciliation and Facebook Marketing stream assembly

A Dafny model of two small pieces of decision logic in the Airbyte repository.

**`AirbyteResources`** (`airbyte_resources.dfy`) models octavia's `apply`
reconciler. A resource is declared in a YAML file that has already been parsed.
It is a source or a destination. The reconciler searches the platform's API by
definition id, workspace and name, and classifies the matches:

- several matches raise `DuplicateRessourceError`;
- one match is the remote resource;
- no match means absent.

`create` and `update` build their payloads from the YAML keys. A 422 answer
becomes `InvalidConfigurationError`; every other API exception is re-raised
unchanged. YAML keys are readable as attributes, and an absent key raises an
`AttributeError` naming the class and the attribute. The payloads,
`remote_resource`, `exists` and `resource_id` are Python properties: when a
getter raises an `AttributeError`, Python retries through `__getattr__` with
the property's own name, and the model follows that fallback. `factory` picks
the variant from `definition_type`.

The platform API is an input. Each variant's create, update and search
endpoints are total functions from a payload to either a result or an
`ApiException` carrying an HTTP status. As in the source, `remote_resource`
caches nothing: `exists`, `resource_id` and `update_payload` each call the
search endpoint again. Because the endpoint is a function of its payload, all
of those calls give the same answer (see "Left out").

**`FacebookMarketingSource`** (`source_facebook_marketing.dfy`) models
three things in the Facebook Marketing source:

- the date guard of `check_connection`;
- the fixed list of fifteen default streams built by `streams`;
- the loop of `_update_insights_streams`, which appends one custom Ads Insights
  stream per configured custom insight.

A stream is recorded as its class and the keyword arguments it was built with.
The loop is a method. It rewrites four keys of the shared argument dict on each
iteration and is proved against the function `UpdatedStreams`.

`wrappers.dfy` holds the `Option` and `Result` types. A raised exception is an
`Err` value.

## Model

| member | source | states |
|---|---|---|
| `AirbyteResources.InvalidAttributeMessage` | octavia-cli/octavia_cli/apply/airbyte_resources.py:125 | the attribute error message starts with the class name, then a dot, then the attribute name |
| `AirbyteResources.GetAttr` | octavia-cli/octavia_cli/apply/airbyte_resources.py:111-125 | lookup succeeds iff the key is in the YAML map, and then yields the mapped value; otherwise an AttributeError naming class and attribute |
| `AirbyteResources.PropertyAccess` | octavia-cli/octavia_cli/apply/airbyte_resources.py:111-125 | a property read yields its getter's value; a getter error other than AttributeError propagates unchanged; an AttributeError falls back on `__getattr__` with the property's name: the YAML value under that name if declared, else `<Class>.<property> is invalid.` |
| `AirbyteResources.BuildCreatePayload` | octavia-cli/octavia_cli/apply/airbyte_resources.py:176-177 | the create getter builds exactly (definition_id, configuration, workspace_id, resource_name), and succeeds iff the three keys are declared; it can only fail with an AttributeError |
| `AirbyteResources.CreatePayloadOf` | octavia-cli/octavia_cli/apply/airbyte_resources.py:175-177 | with the three keys declared, `create_payload` is that exact payload; with any missing, it is the YAML `create_payload` value or `<Class>.create_payload is invalid.` |
| `AirbyteResources.BuildSearchPayload` | octavia-cli/octavia_cli/apply/airbyte_resources.py:180-181 | the search getter builds exactly (definition_id, workspace_id, resource_name), and succeeds iff both keys are declared; it can only fail with an AttributeError |
| `AirbyteResources.SearchPayloadOf` | octavia-cli/octavia_cli/apply/airbyte_resources.py:179-181 | with both keys declared, `search_payload` is that exact payload; otherwise the YAML `search_payload` value or `<Class>.search_payload is invalid.` |
| `AirbyteResources.Search` | octavia-cli/octavia_cli/apply/airbyte_resources.py:145-146 | one search-endpoint call on the search payload; the payload's AttributeError surfaces; an API exception propagates unchanged |
| `AirbyteResources.ClassifyMatches` | octavia-cli/octavia_cli/apply/airbyte_resources.py:151-156 | more than one match iff DuplicateRessourceError; exactly one iff that match is returned; zero iff None |
| `AirbyteResources.RemoteResourceOf` | octavia-cli/octavia_cli/apply/airbyte_resources.py:148-156 | for a successful search: more than one match raises DuplicateRessourceError, one is that match, zero is None; an API error propagates; an AttributeError falls back on `remote_resource` |
| `AirbyteResources.Exists` | octavia-cli/octavia_cli/apply/airbyte_resources.py:158-160 | the truthiness of `remote_resource` (a found resource true, None false); a non-attribute error propagates; an AttributeError falls back on `exists` |
| `AirbyteResources.GetField` | octavia-cli/octavia_cli/apply/airbyte_resources.py:164 | `.get` yields the field's value when present, `None` otherwise |
| `AirbyteResources.RemoteGet` | octavia-cli/octavia_cli/apply/airbyte_resources.py:164 | `.get(field)` succeeds exactly on a found resource or a YAML mapping, yielding the field or None; on None or any other value it raises AttributeError |
| `AirbyteResources.ResourceId` | octavia-cli/octavia_cli/apply/airbyte_resources.py:162-164 | the found resource's `source_id`/`destination_id`; with no remote resource, or an AttributeError underneath, it falls back on `resource_id`; duplicate and API errors propagate |
| `AirbyteResources.BuildUpdatePayload` | octavia-cli/octavia_cli/apply/airbyte_resources.py:184-189 | the update getter builds (resource id, configuration, resource_name); id errors come first; otherwise it succeeds iff configuration and resource_name are declared |
| `AirbyteResources.UpdatePayloadOf` | octavia-cli/octavia_cli/apply/airbyte_resources.py:183-189 | `update_payload` is the built payload; duplicate and API errors from `resource_id` propagate unchanged; any AttributeError falls back on `update_payload` |
| `AirbyteResources.CreateOrUpdate` | octavia-cli/octavia_cli/apply/airbyte_resources.py:127-137 | the operation's result is returned unchanged on success; status 422 becomes InvalidConfigurationError; any other exception is re-raised as is |
| `AirbyteResources.Create` | octavia-cli/octavia_cli/apply/airbyte_resources.py:139-140 | errors of `create_payload` surface; otherwise the translated outcome of the create endpoint on that payload |
| `AirbyteResources.Update` | octavia-cli/octavia_cli/apply/airbyte_resources.py:142-143 | errors of `update_payload` surface; otherwise the translated outcome of the update endpoint on that payload |
| `AirbyteResources.Factory` | octavia-cli/octavia_cli/apply/airbyte_resources.py:216-223 | "source" gives a Source and "destination" a Destination, keeping the workspace and the YAML map and binding that variant's API; a missing `definition_type` is a KeyError; any other value selects no class and fails |
| `AirbyteResources.ExistsByMatchCount` | octavia-cli/octavia_cli/apply/airbyte_resources.py:148-160 | for a search with n matches: n > 1 raises DuplicateRessourceError, and otherwise `exists` is n == 1 |
| `AirbyteResources.ExistsAnswersOnlyAfterSearch` | octavia-cli/octavia_cli/apply/airbyte_resources.py:145-160 | when the YAML shadows no property, `exists` answers only after a successful search with at most one match, and it is true iff there was exactly one |
| `AirbyteResources.MissingKeyNamesTheProperty` | octavia-cli/octavia_cli/apply/airbyte_resources.py:123-125 | a missing `definition_id` makes `create`, `exists` and `update` fail with `<Class>.create_payload`, `<Class>.exists` and `<Class>.update_payload is invalid.` |
| `AirbyteResources.CreateWhenAbsent` | octavia-cli/octavia_cli/apply/airbyte_resources.py:139-181 | with zero matches, `exists` is false and `create` sends exactly the declared definition id, configuration, workspace and name |
| `AirbyteResources.UpdateUsesRemoteId` | octavia-cli/octavia_cli/apply/airbyte_resources.py:142-189 | with one match, `exists` is true and the update payload carries that match's id field, the local configuration and the name |
| `AirbyteResources.UpdateWithoutMatch` | octavia-cli/octavia_cli/apply/airbyte_resources.py:162-189 | with no match, a YAML `resource_id` becomes the update payload's id; without one, `update_payload` falls back on the YAML file |
| `AirbyteResources.UpdateRefusesDuplicates` | octavia-cli/octavia_cli/apply/airbyte_resources.py:142-189 | with several matches, `update` raises DuplicateRessourceError before calling the update endpoint |
| `AirbyteResources.No422Leaks` | octavia-cli/octavia_cli/apply/airbyte_resources.py:127-164 | `create` never raises a raw 422; a raw 422 from `update` can only be the search's own exception |
| `FacebookMarketingSource.CheckConnection` | airbyte-integrations/connectors/source-facebook-marketing/source_facebook_marketing/source.py:43-49 | accepted iff start_date <= end_date (equal dates pass), then (True, None); otherwise a ValueError with the source's message |
| `FacebookMarketingSource.Unique` | airbyte-integrations/connectors/source-facebook-marketing/source_facebook_marketing/source.py:115-117 | `list(set(xs))`: the same elements as the input, no duplicates, never longer |
| `FacebookMarketingSource.InsightsArgs` | airbyte-integrations/connectors/source-facebook-marketing/source_facebook_marketing/source.py:60-64 | the shared insights arguments are exactly api, start_date and end_date: the API handle passed in and the configured dates |
| `FacebookMarketingSource.UpdateInsightsStreams` | airbyte-integrations/connectors/source-facebook-marketing/source_facebook_marketing/source.py:104-121 | the loop returns `UpdatedStreams` of its inputs; the shared dict is left untouched without insights and otherwise holds the last insight's four keys |
| `FacebookMarketingSource.Streams` | airbyte-integrations/connectors/source-facebook-marketing/source_facebook_marketing/source.py:51-83 | returns the default streams passed through the custom-insights update, built from the config's account, token and dates |
| `FacebookMarketingSource.OverwriteForgetsPrevious` | airbyte-integrations/connectors/source-facebook-marketing/source_facebook_marketing/source.py:113-118 | rewriting the four keys for a later insight erases everything the earlier iteration wrote, so every custom stream depends only on the original args and its own insight |
| `FacebookMarketingSource.CustomStreamsAt` | airbyte-integrations/connectors/source-facebook-marketing/source_facebook_marketing/source.py:111-121 | there is one custom stream per insight, in insight order: stream i is built from insight i |
| `FacebookMarketingSource.CustomStreamShape` | airbyte-integrations/connectors/source-facebook-marketing/source_facebook_marketing/source.py:114-118 | a custom stream is AdsInsights, named "Custom" + insight name; its fields, breakdowns and action_breakdowns hold the insight's elements once each; the other arguments are the shared ones |
| `FacebookMarketingSource.UpdatedStreamsLayout` | airbyte-integrations/connectors/source-facebook-marketing/source_facebook_marketing/source.py:108-121 | no insights (None or empty) returns the streams unchanged; otherwise the original streams come first, in order, followed by n custom streams in insight order, for a length of len(streams)+n |
| `FacebookMarketingSource.DefaultStreamsLayout` | airbyte-integrations/connectors/source-facebook-marketing/source_facebook_marketing/source.py:65-81 | fifteen default streams of the listed classes in the listed order, AdAccount first and Activities last |
| `FacebookMarketingSource.AllStreamsLayout` | airbyte-integrations/connectors/source-facebook-marketing/source_facebook_marketing/source.py:65-83 | `streams` yields 15 + n streams: the default classes in order, then only AdsInsights streams with a name |

## Notes on the source

- The search answer is read through its `sources` field for both variants
  (octavia-cli/octavia_cli/apply/airbyte_resources.py:151-154), including
  Destination, whose search endpoint's answer lists destinations. The model
  keeps a single `sources` list of matches for both variants. It does not fix
  this.
- `exists` tests the truthiness of the remote resource. The model takes a
  found resource to be truthy.
- `update` evaluates `resource_id` first, which performs a search. An API
  exception from that search, a 422 included, is not translated into
  `InvalidConfigurationError` (see `No422Leaks`).
- A missing YAML key read inside a property is not reported under its own
  name. Python retries the property through `__getattr__`, so the error
  names the property (`Source.create_payload is invalid.`). A YAML key named
  like the property supplies its value instead: for example, a declared
  `resource_id` becomes the update's id when no remote resource exists.
- The docstring of `_update_insights_streams` says the custom streams replace
  the default insights streams, but the code appends them
  (airbyte-integrations/connectors/source-facebook-marketing/source_facebook_marketing/source.py:105-106, 121).
  The model follows the code.
- The docstring of `check_connection` promises `(False, error)` on failure,
  but the code raises `ValueError`
  (airbyte-integrations/connectors/source-facebook-marketing/source_facebook_marketing/source.py:41, 45).
  The model follows the code.
- With an unknown `definition_type`, the factory's class variable is never
  assigned. Python then raises `UnboundLocalError` when it is read, and the
  model returns that error.

## Left out

- The generated API client is modelled only by abstract endpoint functions.
  This covers transport, authentication, and the `getattr` lookup of endpoint
  names.
- `factory`'s YAML file opening and parsing is I/O and a library. The model
  starts from the parsed map.
- `get_connection_configuration_diff` is left out because it is a DeepDiff
  tree diff and pretty-print from a library outside this model. When there is
  no remote resource, its `remote_config` is unbound and it would fail with
  `UnboundLocalError`; that is not modelled either.
- Exception presentation by the CLI and logging are left out.
- pydantic parsing of the connector config, the pendulum date conversion and
  the `API(...)` constructor are not modelled. The constructor makes network
  calls; here it is a value built from the account id and the access token.
  Dates are integer timestamps.
- `check_connection` does not model the failures of `API(...)`, which depend on
  the network.
- `spec()` is left out: it is constant data built from library classes.
- The stream classes' own behaviour is left out. Only their constructor
  arguments are recorded.
- `AirbyteResources.RemoteResourceOf`: reads one `sources` list for both
  variants. A destination search answer would have no `sources` attribute, and
  Python would then fall back to `Destination.remote_resource is invalid.`;
  the model keeps the single list of matches instead.
- The generated payload classes' own type validation is not modelled.
- The remote side does not change between calls. The endpoints are functions
  of the payload, so every search made by `exists`, `resource_id` and
  `update_payload` sees one remote state. In Python each is a separate network
  call, and a resource created, renamed or deleted remotely between `exists` and
  `create`/`update` can make `update` fall back on `resource_id` or raise
  `DuplicateRessourceError` after `exists` answered true. `CreateWhenAbsent`,
  `UpdateUsesRemoteId` and `ExistsAnswersOnlyAfterSearch` rely on the searches
  agreeing.
- Error messages that Python itself generates (`UnboundLocalError`, the
  AttributeError of `.get` on a value without it) use the wording of
  Python 3.10; Python 3.11 words the `UnboundLocalError` differently.
- `Unique`: fixes an order (the last occurrence of each element is kept), where
  Python's `list(set(...))` order depends on hashing. Its contract, and every
  property stated about custom streams, speak only of the elements and of the
  absence of duplicates.
