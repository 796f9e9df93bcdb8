# Boekuwzending API client core, modelled in Dafny

This project models the two mechanisms the rest of the Boekuwzending PHP client
library rests on, and proves what they promise.

- **The authorized request client** (`src/Client.php`). It holds client
  credentials and a cached bearer token. The private `authorize` step exchanges
  the credentials for a token with `POST /token`. `request` runs that step only
  when the cached token is empty in PHP's `empty()` sense. It then sends the
  application call with `Authorization: Bearer <token>` and a JSON body, and
  maps failures to `NoCredentialsException`, `AuthorizationFailedException` and
  `RequestFailedException(message)`.
- **The serializer registry** (`src/Serializer/Serializer.php`). It is a fixed,
  ordered table from resource class to serializer. `getSerializer` scans it for
  an exact match and throws `SerializerNotFoundException` on a miss. `serialize`
  dispatches on the object's runtime class and `deserialize` on the requested
  type.
- **The Order serializer** (`src/Serializer/OrderSerializer.php`). It turns the
  flat `Order` into the nested wire map
  `{externalId, reference, createdAtSource, orderLines: [...], shipTo: {contact, address}}`
  and back. Every nested resource goes through a registry that it creates
  itself.

Files:

- `Wrappers.dfy`: `Option` and `Result`.
- `PhpValues.dfy`: the generic decoded-JSON value, PHP's `empty()`,
  `sprintf('%s')` and array-offset reads.
- `Resources.dfy`: the resource classes as a closed enum; `Order` spelled out,
  other resources as records with uninterpreted fields.
- `Client.dfy` (module `ApiClient`): a transport test double that logs each call
  and answers it from a responder function; the client as a class; the same
  behaviour as pure step functions over a `ClientState`; lemmas about runs of
  requests.
- `SerializerRegistry.dfy`: the table, `Lookup`, dispatch, and the `Serializer`
  class with its scanning loop.
- `OrderSerializer.dfy`: the two loops as methods, their specification
  functions, and the round-trip lemmas.

The class methods are proved to perform exactly the pure steps. For example,
`Client.Request` ensures `(State(), r) == RequestStep(old(State()), ...)`,
and the OrderSerializer methods ensure `r == SerializeOrder(StandardTable(), ...)`.
What the source promises is stated on those steps and in lemmas about them.

The network, Symfony's `getContent()` and `json_decode` are collapsed into one
responder. It takes the index of a call and the call, and returns one of three
outcomes: a transport error with its message, a content error with its message,
or the decoded content. The per-type serializers other than Order's are not
part of this model. Their behaviour is a `Codecs` parameter, a pair of functions
per serializer kind. Where a property depends on them, such as a round trip, the
lemma assumes it explicitly in its `requires`.

The model follows the code in these places:

- With no body, `request` sends the empty PHP array `[]`, not an empty object.
- `empty()` also treats the string `"0"` as missing, so a client id of `"0"`
  raises `NoCredentials`.
- A decoded application response that is not an array (for example `null` when
  the body is not JSON) does not come back as a map. The declared return type
  `array` makes PHP throw a `TypeError`, modelled as `ReturnTypeError`.
- A token response without `access_token` caches null. The current call still
  goes out with the header `"Bearer "`, and the next request authorizes again.
- Passing a non-array to a `deserialize(array $data, …)` parameter throws PHP's
  `TypeError`, modelled as `SerializerError.TypeError`.
- A per-type serializer output that is not an array cannot leave the registry's
  `serialize(): array`. Under strict types that is also PHP's `TypeError`, modelled
  the same way.

## Model

| member | source | states |
|---|---|---|
| ApiClient.AuthorizeStep | src/Client.php:140-165 | The credentials are never changed. With either credential empty, it raises NoCredentials with the source's message and the state, call log included, is unchanged. Otherwise exactly one call is logged: the POST /token form exchange with grant_type, client_id and client_secret. It succeeds exactly when that call yields content, and then the token becomes the response's access_token (null when absent). A failed exchange raises AuthorizationFailed and keeps the old token. |
| ApiClient.ApplicationResult | src/Client.php:111-126 | A transport error or a getContent error becomes RequestFailed carrying the same message. The result succeeds exactly when the decoded body is an array, and is then that body unchanged. A decoded body that is not an array is ReturnTypeError. |
| ApiClient.RequestStep | src/Client.php:105-127 | Credentials are untouched. With a non-empty token: no exchange, the token is unchanged, and exactly one application call with header "Bearer "+token and the body (or []) is logged. With an empty token and no credentials: NoCredentials, nothing changes, no call. With an empty token and a failed exchange: AuthorizationFailed, the token is unchanged, and the only logged call is the exchange. With an empty token and a successful exchange: the token becomes access_token, and the logged calls are the exchange and then the application call carrying that new token. |
| ApiClient.CachedTokenIsReused | src/Client.php:107-109 | From a non-empty token, any run of requests keeps the token, keeps the earlier log as a prefix, adds exactly one call per request, and makes no token exchange. |
| ApiClient.OneExchangeForManyRequests | src/Client.php:107-109 | From an empty token, if the first request caches a non-empty token, then a run of n requests makes exactly one token exchange and n+1 calls. Two successful requests therefore cost one exchange. |
| ApiClient.NoCredentialsNoCalls | src/Client.php:142-144 | Before credentials are set (empty token), every request of a run raises NoCredentials, and the state, call log included, ends as it began. |
| ApiClient.FailedExchangeIsRetried | src/Client.php:154-162 | A failed exchange raises AuthorizationFailed, makes no application call and keeps the empty token, so the next request's first call is the token exchange again. |
| ApiClient.MissingAccessTokenReauthorizes | src/Client.php:164 | A token response without access_token caches null (line 164). The application call still goes out, with header exactly "Bearer " (line 114), and the next request exchanges a token again (line 107). |
| ApiClient.Client.constructor | src/Client.php:79-84 | A new client keeps the given transport and starts with no credentials and a null token. |
| ApiClient.Client.SetCredentials | src/Client.php:90-94 | Both credential fields are overwritten. The cached token and the call log stay as they were. |
| ApiClient.Client.Authorize | src/Client.php:140-165 | The method's new state and result are exactly those of AuthorizeStep on the old state. |
| ApiClient.Client.Request | src/Client.php:105-127 | The method's new state and result are exactly those of RequestStep on the old state. |
| SerializerRegistry.NotFound | src/Serializer/Serializer.php:84-86 | The miss is a SerializerNotFound whose message ends with the requested class name. |
| SerializerRegistry.Lookup | src/Serializer/Serializer.php:84-86 | A failed lookup is the SerializerNotFound exception naming the requested type. |
| SerializerRegistry.LookupSucceedsOnExactKey | src/Serializer/Serializer.php:76-87 | A lookup succeeds exactly when some entry's key equals the requested type. There is no fallback to any other key. |
| SerializerRegistry.LookupFindsFirstMatch | src/Serializer/Serializer.php:78-81 | A lookup returns the serializer of the first entry whose key equals the requested type. |
| SerializerRegistry.SerializeWith | src/Serializer/Serializer.php:51-56 | A miss on the exact runtime class fails naming that class. A serializer failure is passed on unchanged. Output that is an array is returned as it is, and output that is not an array is PHP's TypeError, because the declared return type is `array` under strict types. A success is therefore always an array. |
| SerializerRegistry.DeserializeWith | src/Serializer/Serializer.php:64-69 | A non-array argument is a TypeError. Otherwise the serializer is selected by the requested type alone, a miss fails naming it, and a hit passes the data and the requested type to the serializer and returns its result. |
| SerializerRegistry.StandardTableRegisters | src/Serializer/Serializer.php:33-43 | The constructor's table finds a serializer for every class except Order and OrderLine, so nine classes in all. |
| SerializerRegistry.OrderTypesUnregistered | src/Serializer/Serializer.php:33-43 | Looking up Order or OrderLine in that table fails with SerializerNotFound naming the class. |
| SerializerRegistry.InstructionsShareSerializer | src/Serializer/Serializer.php:37-38 | DispatchInstruction and DeliveryInstruction both resolve to the instruction serializer. |
| SerializerRegistry.StandardTableFindsEveryEntry | src/Serializer/Serializer.php:33-43 | The table's keys are distinct: looking up the class of any entry finds that entry's serializer. |
| SerializerRegistry.RegistryRoundTrip | src/Serializer/Serializer.php:51-69 | If an object's class is registered and its serializer round-trips, then deserializing its serialization as its own class gives back the object. |
| SerializerRegistry.Serializer.constructor | src/Serializer/Serializer.php:31-44 | The table is built once, is the nine-entry standard table, and is a constant that no method can change. |
| SerializerRegistry.Serializer.GetSerializer | src/Serializer/Serializer.php:76-87 | The linear scan with early return yields exactly Lookup on the table. |
| SerializerRegistry.Serializer.Serialize | src/Serializer/Serializer.php:51-56 | The result is SerializeWith on the registry's table, including the TypeError for serializer output that is not an array. |
| SerializerRegistry.Serializer.Deserialize | src/Serializer/Serializer.php:64-69 | The result is DeserializeWith on the registry's table. |
| OrderSerializer.SerializeLines | src/Serializer/OrderSerializer.php:23-26 | On success there are as many wire lines as input lines, and wire line i is the registry serialization of input line i. |
| OrderSerializer.SerializeLinesFirstFailure | src/Serializer/OrderSerializer.php:23-26 | A failure of the line loop is the failure of a line all of whose predecessors serialized. |
| OrderSerializer.DeserializeLines | src/Serializer/OrderSerializer.php:49-52 | On success there are as many lines as wire lines, and line i is wire line i deserialized as OrderLine. |
| OrderSerializer.DeserializeLinesFirstFailure | src/Serializer/OrderSerializer.php:49-52 | A failure of the line loop is the failure of a wire line all of whose predecessors deserialized. |
| OrderSerializer.SerializeOrder | src/Serializer/OrderSerializer.php:19-38 | It succeeds exactly when the lines, the contact and the address all serialize, and otherwise fails with the first of those failures. On success: exactly the five top-level keys; externalId, reference and createdAtSource copied unchanged; orderLines being the serialized lines in order; shipTo having exactly contact and address, each the registry serialization of the corresponding field. |
| OrderSerializer.DeserializeOrder | src/Serializer/OrderSerializer.php:45-63 | A non-array is a TypeError. It succeeds exactly when the wire lines, shipTo.contact as Contact and shipTo.address as Address all deserialize, and otherwise fails with the first of those failures. On success the new order's six fields are: the three scalars copied, the lines in wire order each deserialized as OrderLine, and contact and address taken from under shipTo. |
| OrderSerializer.LinesRoundTrip | src/Serializer/OrderSerializer.php:23-52 | With OrderLine registered to a round-tripping serializer, deserializing the serialized lines gives back the same lines in the same order. |
| OrderSerializer.OrderRoundTrip | src/Serializer/OrderSerializer.php:19-63 | Suppose Contact and Address are registered and their serializers round-trip, and OrderLine is too whenever the order has lines. Then deserialize(serialize(o)) equals o field for field. |
| OrderSerializer.StandardOrderRoundTrip | src/Serializer/OrderSerializer.php:19-63 | With the registry that OrderSerializer builds, an order without lines comes back from deserialize(serialize(o)) unchanged, provided the contact and address serializers round-trip. |
| OrderSerializer.SerializeOrderWithLinesFails | src/Serializer/OrderSerializer.php:24-25 | With the constructor's table, an order with an order line fails with SerializerNotFound for OrderLine. |
| OrderSerializer.SerializeOrderWithoutLines | src/Serializer/OrderSerializer.php:28-37 | With the constructor's table, an order without lines serializes exactly when the contact and address serializers both succeed with array output. |
| OrderSerializer.DeserializeOrderWithLinesFails | src/Serializer/OrderSerializer.php:50-51 | With the constructor's table, wire data with a line fails at the first line: SerializerNotFound for OrderLine, or TypeError if that line is not an array. |
| OrderSerializer.DeserializeOrderWithoutLines | src/Serializer/OrderSerializer.php:54-62 | With the constructor's table, wire data without lines deserializes exactly when shipTo.contact and shipTo.address are arrays that the contact and address serializers accept. |
| OrderSerializer.Serialize | src/Serializer/OrderSerializer.php:19-38 | The loop method, using a fresh registry, returns exactly SerializeOrder for the constructor's table. |
| OrderSerializer.Deserialize | src/Serializer/OrderSerializer.php:45-63 | The loop method, using a fresh registry, returns exactly DeserializeOrder for the constructor's table. |

## Left out

- The HTTP transport is a test double answering from a responder function. It stands in for Symfony's `HttpClientInterface`, `getContent()` and the network, which are foreign I/O. Only each call's options and the failure kind and message of its outcome are kept.
- `json_decode` is folded into the responder's decoded outcome. It is a foreign parser, and without `JSON_THROW_ON_ERROR` its failure is just a null value.
- `registerEndpoints` and the endpoint façades (Me, Shipment, Tracking, Label) are left out as construction plumbing. So are the URL and environment constants, which are configuration.
- The serializers of Shipment, Contact, Address, the instructions, Item, Tracking, TrackingLine, Label and OrderLine are not part of this model. They appear only as the `Codecs` parameter, and their round trip is assumed where needed (`RoundTrips`).
- Resource classes other than Order keep their fields uninterpreted (`Record`), because their field lists belong to those serializers.
- Order is a value, so building it stands for `new Order()` followed by the six setter calls. A value has no identity, which makes the returned order fresh trivially. Object identity and aliasing of resources are not modelled.
- PHP's `empty()` is modelled for null, booleans, integers, strings (including `"0"`) and arrays. Floating-point values are not modelled at all.
- AccessTokenOf: a token response that is a JSON string reads `access_token` as null. PHP's string-offset rules for that case are not modelled.
- OrderSerializer.DeserializeOrder: requires that the wire `orderLines` is not a JSON object. PHP would iterate such an object in insertion order, which a Dafny map does not keep. The same requirement is on `OrderSerializer.Deserialize`.
- `get_class(null)` on a missing contact or address is not modelled, because the in-memory order always holds both.
- The registry constructor's instance creation per serializer class is not modelled; the table holds serializer kinds.
- The body argument of `request` may be any value in the model. PHP restricts it to an array or null.
- ApiClient.Client.constructor: the model always holds a transport. PHP also allows `new Client()` with no HTTP client (src/Client.php:79). Such a client then throws PHP's `Error` at its first call that reaches the transport (lines 112 and 147), and that case is not modelled.
- Concurrency around the token cache is not modelled, because the code has none.
- The exception class hierarchy is not visible. Each exception is a separate variant.
