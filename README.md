# firebase-server, modelled in Dafny

firebase-server is a mock of the Firebase Realtime Database server for
tests. A client connects over a WebSocket. The server answers the client's
data-protocol messages against an in-memory database:

- `l`/`q` listen,
- `m` update,
- `p` set,
- `auth`/`gauth` authenticate.

Rules decide what may be read and written. The server's clock can be
pinned, and `{".sv": "timestamp"}` placeholders are replaced by that
clock's time.

The repository holds two generations of the server and the project models
both:

- `index.ts` is the current, single-file server.
- The older `lib/*.js` generation splits the same job into a server, a
  client connection, an auth handler, a message parser and three request
  handlers.

Both share the helpers in `lib/`: path normalisation, timestamp
replacement, the testable clock, the token validator, the transaction
hash and query pagination.

Modules, one per source file (or group of files):

| module | source |
|---|---|
| `Js` | JavaScript values: JSON values, truthiness, property reads that throw on `null`/`undefined`, lodash `_.get` |
| `Wrappers` | `Option` and `Result` |
| `Paths` | `lib/normalize-path.js` and `normalizePath` in `index.ts` |
| `Actions` | `lib/lookup-action.js` |
| `Messages` | `lib/message.js` |
| `Extract` | `lib/extract.js` |
| `Refs` | database references (`baseRef.child(path)`) |
| `ServerTimestamp` | `lib/replace-server-timestamp.js` and `replaceServerTimestamp` in `index.ts` |
| `TestableClock` | `lib/testable-clock.js` |
| `Tokens` | `lib/token-validator.ts` and `lib/token-validator.js` |
| `KeyOrder` | the default `Array.prototype.sort` on object keys |
| `FirebaseHash` | `lib/firebase-hash.ts` and `lib/firebase-hash.js` |
| `Paginate` | `lib/paginate-ref.ts` |
| `Frames` | `send` and `accumulateFrames` in `index.ts`: frame splitting and reassembly |
| `Backend` | the data store as the handlers see it, and the reply envelopes |
| `Session` | `index.ts`: the `FirebaseServer` class and the per-connection closure. `Server` and `Connection` are classes whose fields the handlers update |
| `LegacySession` | `lib/server.js`, `lib/client-connection.js`, `lib/auth-handler.js`, `lib/handle-listen.js`, `lib/handle-update.js` and `lib/handle-set.js`, as classes `LegacyServer`, `LegacyConnection` and `AuthHandler` |

Services the core calls but does not implement are parameters of the
model. They are bundled in `Session.World` and `LegacySession.LegacyWorld`:

- `JSON.parse` and `JSON.stringify`;
- `jwt-simple`'s `decode`;
- the order of `Object.keys`;
- SHA-1 with base64 encoding, and the IEEE-754 hex encoding of a double;
- the targaryen rule engine (or, for the older generation, `Ruleset`);
- the Firebase client's query evaluation;
- the system time and the results of time functions (`TestableClock.Env`).

The properties proved about these parameters hold for every choice of
them.

Where the code and the project's own description of its behaviour
differ, the model follows the code:

- `normalizePath` is not idempotent (`Paths.NotIdempotent`).
- `handleSet` runs the rules check before the transaction-hash check, so
  a write both stale and denied gets `permission_denied`.
- A query limit is `limitToFirst` only when `vf === "l"`.
- A testable clock set to `0` reads `0`. Only `index.ts`'s own
  `server.clock || Date` treats `0` as "not set".

The older handlers use members that the older `Message` does not have.
The model supplies each one as follows:

- `message.fbRef(baseRef)` becomes the node at `message.path` (`Refs.RefFor`).
- `message.normalizedPath` becomes the message's own `path`/`fullPath`/`isPriorityPath` fields.
- `require('./firebaseHash')` is taken to be `lib/firebase-hash.js`.
- `handle-listen.js` passes a `Message` to the `extract.*` functions, which read `message.d...`. The model applies them to the parsed envelope, `message.raw`.

## Model

| member | source | states |
|---|---|---|
| Actions.LookupAction | lib/lookup-action.js:6-16 | a key maps to an action exactly when it is one of `l`, `q`, `m`, `p`, `auth`, each to its own action; a string naming a member `ACTION_KEYS` inherits from `Object.prototype` yields that inherited member; every other value maps to null |
| Actions.LookupTotal | lib/lookup-action.js:14-16 | the lookup fails exactly for values that are neither one of the five table keys nor the name of an inherited `Object.prototype` member |
| Actions.LookupNames | lib/lookup-action.js:6-12 | the five keys name `listen`, `query`, `update`, `set`, `auth`; `gauth` and a missing key give null |
| Paths.StripPrioritySuffix | lib/normalize-path.js:11-14 | a path ending in `.priority`, optionally after a slash, loses exactly that suffix; any other path is unchanged |
| Paths.MatchesPrioritySuffix | lib/normalize-path.js:11 | the priority test: the path ends in `.priority`; the optional slash before it never decides a match |
| Paths.LegacyNormalizePath | lib/normalize-path.js:9-20 | keeps the full path, flags priority paths exactly when the path ends in `.priority`, and strips that suffix only from them |
| Paths.DropLeadingSlash | index.ts:52-56 | the result with one `/` in front is the input, or the input had no leading slash and is returned as is |
| Paths.NormalizePath | index.ts:46-62 | the current version is the older one followed by dropping one leading slash, with the same flag and full path |
| Paths.NormalizeVersionsAgree | index.ts:46-62 | on paths without a leading slash the two generations normalise identically |
| Paths.PriorityPathReassembles | index.ts:46-62 | for a priority path, the stripped path plus the removed suffix gives back the full path, less at most one leading slash |
| Paths.SingleSuffixRemoved | lib/normalize-path.js:13 | only one trailing `.priority` is removed; the result can still end in `.priority` |
| Paths.SlashIsOptional | lib/normalize-path.js:11 | the slash before `.priority` is optional; a leading slash is dropped by the current version |
| Paths.LegacyVectors | test/normalize-path.spec.js:6-27 | the unit tests' plain and priority paths, and a leading slash kept by the older version |
| Paths.NotIdempotent | index.ts:46-62 | normalising twice can differ from normalising once (`a/.priority/.priority`, `//a`) |
| Messages.Get | lib/message.js:40-42 | the value at a property path of the raw message, or the default when the path is absent |
| Messages.DropFirstChar | lib/message.js:24 | a falsy path gives the empty string; a string loses its first character; any other truthy value is a type error |
| Messages.NewMessage | lib/message.js:9-36 | a string message that does not parse is a syntax error; otherwise every field is the raw envelope's value at its path, the action is the lookup of `d.a`, and the path is the full path with the priority suffix removed exactly when it is a priority path |
| Messages.MessageVectors | test/message.spec.js:6-26 | a listen message at `/a/b/c` has raw action `l`, action `listen`, path and full path `a/b/c` and no priority flag |
| Messages.PriorityMessageVector | test/message.spec.js:13-18 | a query message at `/a/b/c/.priority` has full path `a/b/c/.priority`, path `a/b/c`, the priority flag and action `query` |
| Messages.FirstCharacterDropped | lib/message.js:24 | the first character is dropped whatever it is, and `/` or no path give the root |
| Extract.WirePath | lib/extract.js:18-19 | reading `d.b.p` fails exactly when `d` or `d.b` is missing or null; otherwise it is the value at that path |
| Extract.ExtractPath | lib/extract.js:16-22 | the wire path without its first character, normalised as the older generation does; no path is the root; failures propagate |
| Extract.ExtractFbRef | lib/extract.js:24-27 | the base reference for the root path, its child at the normalised path otherwise, failing exactly when path extraction fails |
| Extract.FromPath | lib/extract.js:29-33 | the value at the given property path of the message, or the default |
| Extract.RequestId | lib/extract.js:10 | `d.r` of the message, present exactly when `d` is an object holding `r` |
| Extract.Data | lib/extract.js:11 | `d.b.d`, present exactly when `d` and `d.b` are objects and `d.b` holds `d` |
| Extract.Hash | lib/extract.js:12 | `d.b.h`, present exactly when `d` and `d.b` are objects and `d.b` holds `h` |
| Extract.Credentials | lib/extract.js:13 | `d.b.cred`, present exactly when `d` and `d.b` are objects and `d.b` holds `cred` |
| Extract.MissingPathIsRoot | lib/extract.js:16-27 | a message without `d.b.p` addresses the root node |
| Extract.ExtractAgreesWithMessage | lib/extract.js:16-22 | for a string path, the extracted path agrees with the path the `Message` constructor computes |
| Refs.ChildRef | index.ts:396 | a child of the root is at the given path, with no query directives |
| Refs.RefFor | index.ts:396 | the empty path gives the base reference; any other path gives the child at that path |
| ServerTimestamp.Substitute | index.ts:205-213 | the sentinel becomes the time; an object keeps its keys; every other value is unchanged |
| ServerTimestamp.HasSentinel | index.ts:205-213 | a value holds the `{".sv": "timestamp"}` sentinel when it is the sentinel or some key of an object holds it, at any depth; the walk replaces exactly these |
| ServerTimestamp.NoSentinelUnchanged | lib/replace-server-timestamp.js:19-31 | a value with no sentinel anywhere is returned unchanged |
| ServerTimestamp.NoSentinelLeft | index.ts:205-213 | after substitution no sentinel remains at any depth |
| ServerTimestamp.SubstituteIdempotent | index.ts:205-213 | substituting again, with any time, changes nothing |
| ServerTimestamp.SubstituteVectors | test/replace-server-timestamp.spec.js:18-57 | the examples of the tests: top level, nested, several sentinels sharing one time |
| ServerTimestamp.SubstituteOpt | index.ts:275-276 | `undefined` stays undefined; a value without a sentinel is unchanged; a present result has no sentinel |
| ServerTimestamp.CallClock.Call | lib/replace-server-timestamp.js:23 | each call of the clock function is counted and returns the reading for that call |
| ServerTimestamp.Replace | lib/replace-server-timestamp.js:15-34 | the clock is called exactly once when the value holds a sentinel, and never otherwise; the result is the substitution of that one reading |
| ServerTimestamp.Walk | lib/replace-server-timestamp.js:19-31 | the mapping walk over children calls the clock at the first sentinel only, and every sentinel gets that time |
| ServerTimestamp.ReplaceTwice | test/replace-server-timestamp.spec.js:34-37 | two separate replacements call the clock once each, with successive readings |
| TestableClock.FuelMonotone | lib/testable-clock.js:25-28 | a proxy chain that resolves with some depth resolves the same with any greater depth |
| TestableClock.SelfProxyOverflows | lib/testable-clock.js:26-27 | a clock that proxies itself never returns: it overflows the stack |
| TestableClock.AcceptedNeverInvalid | lib/testable-clock.js:16-23 | when every source passed validation, reading never reports an invalid time |
| TestableClock.ReadingFacts | lib/testable-clock.js:25-36 | a reading is a pinned number, a function's result or the system time |
| TestableClock.ReadClock | lib/testable-clock.js:25-36 | getTime: a function source is called, a proxied clock is read in turn, a number is the reading, a falsy source reads the system time and anything else throws; a proxy chain beyond the fuel overflows the stack |
| TestableClock.Clocks.NewClock | lib/testable-clock.js:9-10 | a valid source creates a clock with a fresh id; an invalid one throws and changes nothing |
| TestableClock.Clocks.SetTime | lib/testable-clock.js:38-41 | a valid source replaces exactly this clock's source; an invalid one throws and changes nothing |
| TestableClock.Clocks.GetTime | lib/testable-clock.js:25-36 | numbers are returned as is (0 included), functions are called, proxies follow the other clock, every other falsy value gives the system time, self-proxies overflow, nothing reads as invalid |
| TestableClock.ProxyScenario | test/testable-clock.spec.js:36-72 | the proxy test's sequence of readings 3, 6, 9, 9, 12, and `true` refused |
| Tokens.AsBound | lib/token-validator.ts:42-44 | a claim counts as a bound only when it is a number |
| Tokens.ValidSince | lib/token-validator.ts:103-113 | `nbf`, else `iat`, else undefined for objects; null, and an object whose own `hasOwnProperty` shadows the method, throw; other values are undefined |
| Tokens.PlusOneDay | lib/token-validator.ts:97 | `undefined + 86400` is NaN; a number is moved one day on; other claims are not numbers |
| Tokens.ValidUntil | lib/token-validator.ts:91-101 | `exp`, else the start plus one day for objects; null and a shadowed `hasOwnProperty` throw; other values are undefined |
| Tokens.WindowHolds | lib/token-validator.ts:39-47 | throws exactly on null and on a shadowed `hasOwnProperty`; otherwise valid exactly when now, start and end are all numbers and start ≤ now ≤ end |
| Tokens.Seconds | lib/token-validator.ts:22-24 | the floor of milliseconds divided by 1000 |
| Tokens.IsValidTimestamp | lib/token-validator.ts:39-47 | an explicit `now` is used as given, even 0; a missing one is the clock's seconds |
| Tokens.IsValidTimestampLegacy | lib/token-validator.js:37-46 | a falsy `now` is replaced by the clock's seconds |
| Tokens.ZeroNowDiffers | lib/token-validator.js:38 | with `now = 0` the two generations can disagree on the same claims |
| Tokens.WindowVectors | test/token-validator.spec.ts:88-115 | the tests' windows: inside, before, after and the one-day default |
| Tokens.NoStartNeverValid | lib/token-validator.ts:103-113 | claims with neither `nbf` nor `iat` are never valid |
| Tokens.Grab | lib/token-validator.ts:71-77 | on an input whose `hasOwnProperty` is the inherited method, the claim is copied under its new name from the old name, else the new name, else nothing |
| Tokens.Pick | lib/token-validator.ts:72-76 | a value is found exactly when either name is present |
| Tokens.Normalize | lib/token-validator.ts:68-89 | throws exactly for an object with an own `hasOwnProperty` key; otherwise only the seven renamed claims can appear; non-objects give `{}` |
| Tokens.NormalizeRenames | lib/token-validator.ts:79-87 | for an object without an own `hasOwnProperty`, normalize succeeds and each of the seven claims is taken from its old name first, then its new name, and is absent when neither is present |
| Tokens.GrabFromSets | lib/token-validator.ts:71-77 | with distinct new names, the value a claim ends with is the one its own grab picks, else what it held before |
| Tokens.NormalizeIs | lib/token-validator.ts:68-89 | for an object without an own `hasOwnProperty`, the object normalize returns is determined entirely by the seven grabs |
| Tokens.NormalizeVector | test/token-validator.spec.ts:52-73 | the test's claim set normalises to the expected object |
| Tokens.VerifiedClaimsNormalize | lib/token-validator.ts:30-37 | whatever verified decoding returns normalises without throwing, since claims that would throw fail the window check first |
| Tokens.AdminClaims | index.ts:346 | the admin reply carries `auth: null, admin: true, expires: null` |
| Tokens.Shuffle | lib/token-validator.ts:14-17 | with no truthy time and a non-string secret, the secret is the time and the secret becomes null |
| Tokens.SecretOrNull | lib/token-validator.ts:49-51 | a truthy secret is kept; any other becomes null |
| Tokens.TokenValidator.SetSecret | lib/token-validator.ts:49-51 | the secret becomes the new one or null, nothing else changes |
| Tokens.TokenValidator.SetTime | lib/token-validator.ts:62 | the validator's clock source is replaced when valid; an invalid one throws and changes nothing |
| Tokens.TokenValidator.Now | lib/token-validator.ts:22-24 | the clock's reading in whole seconds; failures propagate |
| Tokens.TokenValidator.Decode | lib/token-validator.ts:30-37 | a token that does not decode throws; unverified decoding returns what jwt returns; verified decoding succeeds exactly when jwt succeeds and the window holds at the clock's seconds, and then returns jwt's claims; a failing clock or a throwing window check is reported as that failure |
| Tokens.NewTokenValidator | lib/token-validator.ts:13-20 | the arguments are shuffled, the secret is set, and a clock is created; an invalid time throws |
| Tokens.WithTime | lib/token-validator.ts:26-28 | an acceptable clock gives a fresh valid validator with the same secret on a new clock appended to the shared registry, the original validator still valid and its clock untouched; an invalid one throws and the registry is unchanged |
| Tokens.WithSecret | lib/token-validator.ts:53-55 | a fresh valid validator with the new secret on a new clock made from the original time argument, appended to the shared registry; an invalid time throws and the registry is unchanged |
| Tokens.ServerValidatorArguments | index.ts:149 | `TokenValidator(null)` gets a null secret and a system clock |
| KeyOrder.StrLtIrreflexive | lib/firebase-hash.ts:35 | the key order is irreflexive |
| KeyOrder.StrLtTransitive | lib/firebase-hash.ts:35 | the key order is transitive |
| KeyOrder.StrLtTotal | lib/firebase-hash.ts:35 | any two different keys are ordered |
| KeyOrder.StrLtAsymmetric | lib/firebase-hash.ts:35 | no two keys are ordered both ways |
| KeyOrder.Insert | lib/firebase-hash.ts:35 | insertion adds exactly one key |
| KeyOrder.Sort | lib/firebase-hash.ts:35 | sorting keeps the length and the set of keys |
| KeyOrder.InsertSorted | lib/firebase-hash.ts:35 | inserting a new key into a sorted list keeps it sorted |
| KeyOrder.SortSorted | lib/firebase-hash.ts:35 | sorting distinct keys gives a strictly ascending list |
| KeyOrder.HeadIsLeast | lib/firebase-hash.ts:35 | the first key of a sorted list precedes all others |
| KeyOrder.SortedUnique | lib/firebase-hash.ts:35 | two sorted lists of the same keys are equal |
| KeyOrder.SortOrderIndependent | lib/firebase-hash.ts:35 | the sorted keys do not depend on the enumeration order |
| FirebaseHash.HashPriority | lib/firebase-hash.ts:15-21 | numbers hash as `number:` and their hex, strings as `string:` and the text |
| FirebaseHash.PriorityPart | lib/firebase-hash.ts:28-30 | a truthy `.priority` contributes `priority:<hash>:`, otherwise nothing |
| FirebaseHash.Unwrap | lib/firebase-hash.ts:31-33 | a truthy `.value` replaces the value, otherwise it is kept |
| FirebaseHash.BranchTestsAgree | lib/firebase-hash.js:36 | the older and the current object tests take the same branch |
| FirebaseHash.ScalarPart | lib/firebase-hash.ts:40-43 | a scalar contributes its type and its number hex, boolean text or string |
| FirebaseHash.SortedKeys | lib/firebase-hash.ts:35 | the object's keys strictly ascending |
| FirebaseHash.SortIsCanonical | lib/firebase-hash.ts:35 | sorting any enumeration of the keys gives the sorted keys |
| FirebaseHash.Hash | lib/firebase-hash.ts:23-47 | null hashes to the empty string; every other value to the digest of its pre-image |
| FirebaseHash.EmptyOnlyForNull | lib/firebase-hash.ts:25-27 | the hash is empty exactly for null |
| FirebaseHash.GetFirebaseHash | lib/firebase-hash.ts:23-47 | the loop computes the hash, whatever order `Object.keys` enumerates in |
| FirebaseHash.KeyTerms | lib/firebase-hash.ts:34-39 | the loop builds `:key:<child hash>` for each key but `.priority`, in sorted order |
| FirebaseHash.PreImage | lib/firebase-hash.ts:28-43 | the string hashed: the priority prefix for a truthy `.priority`, then, after unwrapping a truthy `.value`, the key terms of an object or the type and hex or text of a scalar |
| FirebaseHash.Terms | lib/firebase-hash.ts:34-39 | the key terms: `:key:` and the child's hash for each key in the given order, `.priority` skipped |
| FirebaseHash.BooleanVectors | test/firebase-hash.spec.ts:13-19 | the pre-images of `true` and `false` |
| FirebaseHash.NumberVector | test/firebase-hash.spec.ts:21-23 | the pre-image of `500` is its type and double hex |
| FirebaseHash.StringVector | test/firebase-hash.spec.ts:25-27 | the pre-image of `"Hello World"` |
| FirebaseHash.NumericPriorityVector | test/firebase-hash.spec.ts:37-39 | the pre-image of a primitive with a numeric priority |
| FirebaseHash.StringPriorityVector | test/firebase-hash.spec.ts:41-43 | the pre-image of a primitive with a string priority |
| FirebaseHash.SingleKeyVector | test/firebase-hash.spec.ts:29-31 | the pre-image of `{foo: 'bar'}` |
| FirebaseHash.NullChildTerm | lib/firebase-hash.ts:37 | a null child contributes `:key:` and an empty hash |
| FirebaseHash.PriorityKeyFirst | lib/firebase-hash.ts:35-36 | `.priority` sorts before ordinary keys |
| FirebaseHash.PriorityObjectVector | test/firebase-hash.spec.ts:49-51 | the pre-image of an object with a string priority |
| Paginate.DirectiveFor | lib/paginate-ref.ts:5-32 | `sp`, `ep`, `i` and `l` translate to their query directives (with `sn`/`en` when truthy, `vf === "l"` choosing limitToFirst); every other key adds nothing |
| Paginate.Translate | lib/paginate-ref.ts:4-33 | at most one directive per key |
| Paginate.PaginateRef | lib/paginate-ref.ts:2-36 | a falsy query leaves the reference; otherwise the reference gains the translated directives in key order |
| Paginate.OnlyRecognisedKeysCount | lib/paginate-ref.ts:29-31 | a query of unknown keys changes nothing |
| Paginate.DirectiveCount | lib/paginate-ref.ts:4-33 | there is exactly one directive per recognised key |
| Paginate.TranslateVector | lib/paginate-ref.ts:7-28 | start-at with key, limit-to-first and order-by-key in key order |
| Paginate.LimitToLastVector | lib/paginate-ref.ts:15-28 | limit-to-last without `vf`, and order-by-child |
| Frames.MaxFrameLength | index.ts:139-145 | the option when truthy, 16384 otherwise |
| Frames.CeilDiv | index.ts:164 | the least count of frames that holds the payload |
| Frames.DecimalString | index.ts:165 | `String(n)` is a non-empty string of digits |
| Frames.DecimalRoundTrip | index.ts:165 | reading the decimal string gives back the number |
| Frames.FragmentCount | index.ts:164-168 | the loop sends `Math.ceil(length / max)` frames |
| Frames.FragmentSizes | index.ts:166-168 | every frame is non-empty and at most `max`, all but the last exactly `max` |
| Frames.FragmentsConcat | index.ts:166-168 | the frames joined are the payload |
| Frames.Fragments | index.ts:166-168 | the fragments `payload.substr(i, max)` for `i` = 0, max, 2 max, … below the payload's length |
| Frames.Chunked | index.ts:164-168 | the frames one payload goes out as: `String(numFragments)`, then the fragments |
| Frames.SplitPayload | index.ts:164-168 | the send loop produces the count frame followed by the payload's fragments |
| Frames.SendRoundTrip | index.ts:164-168 | the first frame gives the number of frames after it, and they join to the payload |
| Frames.Accumulate | index.ts:364-379 | a buffer that parses is returned and the buffer cleared; otherwise the data is buffered and `''` returned |
| Frames.AccumulateAll | index.ts:364-379 | one result per frame |
| Frames.Reassembly | index.ts:364-379 | sending a message's fragments one by one yields `''` until the last, which yields the message and leaves the buffer empty |
| Backend.StoreSet | index.ts:334 | a set at a location changes that location only; `undefined` is refused |
| Backend.Assign | lib/handle-update.js:24 | lodash `assign`: the keys of both, the new values winning |
| Backend.StoreUpdate | index.ts:285 | an update merges an object into that location only; anything else is refused |
| Backend.UpdateIsSetOfMerge | index.ts:285 | an update is a set of the merged value |
| Backend.AssignEmpty | lib/handle-update.js:24 | merging `{}` leaves an object unchanged |
| Backend.StatusCode | index.ts:202 | the four status codes of replies |
| Backend.StatusOf | index.ts:327 | reading a code gives back the status that prints as it |
| Backend.ReadEnvelope | index.ts:197-203 | a decoded envelope came from a data message (`t: 'd'`) |
| Backend.EnvelopeRoundTrip | index.ts:197-203 | every reply and push the server sends reads back as itself, in either generation's form |
| Backend.EnvelopeJson | index.ts:197-203 | a push is `{d: {a: 'd', b: {p, d}}, t: 'd'}` (with `t: null` in `b` for the older connection, lib/client-connection.js:42-44); a reply is `{d: {r, b: {s, d}}, t: 'd'}`, with an undefined request id left out |
| Backend.EnvelopeJsonInjective | lib/client-connection.js:42-48 | distinct replies are distinct on the wire |
| Backend.FoldPriority | index.ts:304-316 | a priority write sets `.priority` in an object parent, keeping its other keys, or wraps a primitive parent as `.value` |
| Backend.AckedExactlyOnce | index.ts:252-263 | a listen is acked exactly once over any sequence of value events, and never without one |
| Backend.EventReplies | index.ts:253-263 | a listener's successive value events: each pushes its snapshot (only a truthy one in the older handler), and the first, while `sendOk` is up, is followed by the ack |
| Backend.ExportVal | index.ts:257 | `snap.exportVal()` of a node: the value last written there, null for a node never written |
| Backend.FirstEventOrder | lib/handle-listen.js:19-25 | the first event pushes, then acks; the older listener skips a falsy push |
| Session.ServerNow | index.ts:275 | `server.clock || Date.now()`: 0 and null give the system time |
| Session.Identity | index.ts:179-189 | a token's `d` claim, else provider, token and `user_id \|\| sub`; a non-object throws |
| Session.IdentityVectors | index.ts:182-188 | `user_id` first, `sub` when `user_id` is falsy, `d` even when null |
| Session.AuthStepOutcomes | index.ts:174-195 | no truthy token gives nothing and keeps it; a token whose decode throws is cleared to null and gives nothing; a token that decodes is kept and gives `Identity` of its claims, which never throws on verified claims |
| Session.AuthFailureIsFinal | index.ts:174-195 | whenever `authData()` changes the token, it was cleared to null and the cleared token yields nothing again, whatever the clock; an identity is only returned for a kept token that decodes |
| Session.AuthStep | index.ts:174-195 | `authData()` leaves the token as it was or cleared to null, and returns an identity only for a truthy token it keeps |
| Session.PathText | index.ts:391-394 | a falsy path is the root; a string is itself; other values cannot be normalised |
| Session.Route | index.ts:389-409 | missing `d` or `d.b` throws; otherwise each action code goes to its own handler with the request id, normalised path, reference and payload |
| Session.Wire | index.ts:160-172 | what the client receives: every envelope sent, stringified, as its count frame and fragments, in send order |
| Session.Snapshot | index.ts:253-257 | a value event's snapshot: the node's exported value, or the Firebase client's evaluation of the reference's query directives over it |
| Session.RouteListen | index.ts:389-399 | a listen or query with a string path goes to handleListen with `d.r`, the normalised path, its reference and `d.b.q` |
| Session.RoutePriorityListen | index.ts:394-399 | a listen at `/a/.priority` listens at `a` |
| Session.PriorityListenPath | index.ts:46-62 | the priority paths of the listen example normalise to `a` |
| Session.RouteBareUpdate | index.ts:391-401 | an update without path or data goes to the root with `undefined` data |
| Session.Dispatch | index.ts:383-410 | a message is handled exactly when it is truthy, has `t === 'd'` and routes to a handler |
| Session.Server.constructor | index.ts:75-149 | the store and targaryen start from the data (null when none is given) with open rules; the frame length has its default; the validator has no secret and the system clock |
| Session.Server.SetTime | index.ts:466-468 | the pinned time is replaced; nothing else changes |
| Session.Server.SetRules | index.ts:415-417 | the rules are replaced, the database data kept |
| Session.Server.SetAuthSecret | index.ts:470-473 | the admin secret and the validator's secret are both set |
| Session.Connection.constructor | index.ts:155-158 | a connection starts with a null token, no buffer, no listeners and nothing sent |
| Session.Connection.Send | index.ts:160-172 | the reply is recorded and its JSON goes out as the count frame and the fragments |
| Session.Connection.AuthData | index.ts:174-195 | no truthy token returns nothing and keeps it; a failed decode returns nothing and sets the token to null; a successful decode returns the claims' identity (`d`, or provider, token and uid) and keeps the token |
| Session.Connection.Judge | index.ts:215-239 | the rules judge as the current identity; a denial sends `permission_denied` |
| Session.Connection.TryRead | index.ts:215-221 | a read is allowed exactly when the rules allow it; a denial sends `permission_denied` |
| Session.Connection.TryChange | index.ts:223-239 | an allowed write replaces the targaryen database; a denial sends `permission_denied` and keeps it |
| Session.Connection.ValueEvent | index.ts:253-263 | each event pushes the snapshot; the first also acks |
| Session.Connection.HandleListen | index.ts:241-264 | a denied listen subscribes nothing; an allowed one subscribes the paginated reference and its first event pushes then acks |
| Session.Connection.HandleUpdate | index.ts:266-287 | timestamps are replaced with the server time, targaryen judges the patch, and an allowed update merges and acks |
| Session.Connection.CommitSet | index.ts:322-338 | after an allowed write, a differing hash pushes the current value and sends `datastale` with the store untouched; otherwise a defined value is stored and acked |
| Session.Connection.HandleSet | index.ts:289-339 | timestamps replaced, priority folded, rules checked, then the hash: stale sends the current value and `datastale`; otherwise the set is stored and acked |
| Session.Connection.HandleAuth | index.ts:341-362 | the admin secret gives the admin claims; a decodable token is stored and its normalised claims returned; otherwise `invalid_token` |
| Session.Connection.Handle | index.ts:396-408 | a routed request has exactly the effect its handler's predicate (`ListenEffect`, `UpdateEffect`, `SetEffect`, `AuthEffect`) states; no request changes nothing; the buffer becomes the given rest |
| Session.Connection.OnMessage | index.ts:381-410 | `'0'` is ignored; other frames are accumulated and a complete data message dispatched; the handled request's effect on sent envelopes, listeners, token, store and targaryen database is the one its handler states, and nothing changes otherwise |
| LegacySession.Stamp | lib/handle-update.js:18 | the sentinel is replaced with the server clock's reading; a clock that throws stops the request only when there is a sentinel |
| LegacySession.InitialValue | lib/data-store.js:23 | the initial data, or null when falsy |
| LegacySession.LegacyServer.constructor | lib/server.js:22-36 | no rule set (everything is allowed), the data store, a system clock, and a validator whose clock proxies it |
| LegacySession.LegacyServer.SetRules | lib/server.js:55-57 | the rule set is replaced |
| LegacySession.LegacyServer.SetTime | lib/server.js:63-65 | the server clock's source is replaced when valid |
| LegacySession.LegacyServer.SetAuthSecret | lib/server.js:67-69 | the validator's secret is set |
| LegacySession.ValidatorFollowsServerClock | lib/server.js:31-32 | the token validator's clock reads exactly what the server's clock reads, in every environment, failures included |
| LegacySession.AuthStepOutcomes | lib/auth-handler.js:32-42 | no truthy token gives nothing and keeps it; a decode failure clears the token, and the cleared token yields nothing again; success keeps the token and gives its `d` claim |
| LegacySession.AuthStep | lib/auth-handler.js:32-42 | `authData()` leaves the token as it was or cleared to null, and a cleared token yields nothing |
| LegacySession.LegacyConnection.constructor | lib/client-connection.js:16-26 | a connection starts with nothing sent and no listeners |
| LegacySession.LegacyConnection.Send | lib/client-connection.js:32-40 | the reply is recorded |
| LegacySession.LegacyConnection.PushData | lib/client-connection.js:42-44 | the push is `{t: 'd', d: {a: 'd', b: {p, d, t: null}}}` |
| LegacySession.LegacyConnection.PermissionDenied | lib/client-connection.js:46-48 | a `permission_denied` reply |
| LegacySession.AuthHandler.constructor | lib/auth-handler.js:17-23 | a handler starts with a null token |
| LegacySession.AuthHandler.AuthData | lib/auth-handler.js:32-42 | the current token's `d` claim, clearing it on failure |
| LegacySession.AuthHandler.Check | lib/auth-handler.js:50-78 | with no rules everything passes; otherwise the rule set judges the whole data tree as the current identity and a denial sends `permission_denied` |
| LegacySession.AuthHandler.TryRead | lib/auth-handler.js:50-63 | a read at the message's path, judged as above |
| LegacySession.AuthHandler.TryWrite | lib/auth-handler.js:65-78 | a write of the new data at the message's path, judged as above |
| LegacySession.AuthHandler.HandleAuth | lib/auth-handler.js:80-90 | a decodable credential is stored and its normalised claims returned; otherwise `invalid_token` |
| LegacySession.LegacyConnection.Subscribe | lib/handle-listen.js:17-26 | the listener is recorded with its latch down after the first event, which pushes a truthy snapshot and then acks once |
| LegacySession.HandleListen | lib/handle-listen.js:9-29 | an allowed listen subscribes the node; its first event pushes a truthy value, then acks |
| LegacySession.HandleUpdate | lib/handle-update.js:10-33 | timestamps replaced; with rules, the merge is judged; an allowed update merges and acks |
| LegacySession.SetValue | lib/handle-set.js:26-38 | a priority write folds the new data into the node's value as `.priority` |
| LegacySession.HandleSet | lib/handle-set.js:12-64 | timestamps replaced, priority folded, rules checked; a stale hash pushes the current value and sends `datastale`; otherwise the value is stored, pushed and acked |

## Left out

- Sockets, the WebSocket server, the handshake message, port and option resolution, the REST server (`options.rest`), `close`, `address`, `getPort` and the CLI: these are transport, not protocol logic.
- `getData`, `getValue`, `getSnap`, `exportData` and the data-store delegates: these are read accessors. The handlers' reads of the store are modelled.
- The debug and log output.
- Asynchrony: each handler's promise chain runs to completion before the next message. A value listener is modelled up to its first event. `Backend.EventReplies` and `Backend.AckedExactlyOnce` cover any later sequence of events, but later writes do not trigger them.
- The store: a flat map from location to the value last written there, kept exactly as written. Firebase prunes null children and empty objects; the model does not. After `update({a: null})` on `{a: 1, b: 2}` the model holds `{a: null, b: 2}` where Firebase exports `{b: 2}`, so a later hash gains a `:a:` term and the legacy handleSet pushes `{a: null}` where Firebase pushes `null`. A write at a child does not change what its ancestors export, and the reverse. An `update` key holding `/` is a deep-path write in the Firebase client; the model stores it as a literal field name. Firebase's own interpretation of `.priority` and `.value` is not modelled.
- Query evaluation by the Firebase client and targaryen's rule evaluation are parameters of the model.
- JSON: numbers are reals, not IEEE doubles. Arrays, `NaN` and `Infinity` are not represented. The IEEE-754 hex of a double, SHA-1 and base64 are parameters.
- Strings are sequences of characters. JavaScript's UTF-16 code units are not modelled, so lengths, `substr` and key order are per character.
- Frames.MaxFrameLength: the option is a natural number; a negative or fractional `maxFrameLength` is not modelled.
- Backend.Assign: lodash `assign` onto a string or array copies its indexed characters or elements. The model gives primitives no own properties.
- Backend.StoreSet: `set` and `update` with `undefined`, and `update` with a non-object, are refused as the Firebase client refuses them. The client's other validation of keys and values is not modelled.
- Refs.RefFor: `child(path)` is taken to succeed. The Firebase client throws on a path holding `.`, `#`, `$`, `[` or `]`; the model gives such a path a reference instead of an exception.
- Extract.ExtractFbRef: as for `Refs.RefFor`, the client's path validation in `baseRef.child` is not modelled, so an invalid path gives a reference, not an exception.
- Paginate.PaginateRef: each query builder is taken to succeed. The Firebase client throws on a second `orderBy*`, on `startAt`, `endAt` or `equalTo` with a key after `orderByKey`, and on a limit that is not a positive integer; the model appends the directive instead.
- TestableClock.Clocks.GetTime: a proxy chain longer than the number of clocks reports a stack overflow. The model does not prove that such a chain must contain a cycle.
- LegacySession.Stamp: every clock call within one request uses the same `TestableClock.Env`, so delegate time functions return one reading per request. `ServerTimestamp.Replace` models the once-per-call behaviour with distinct readings.
- `try`/`catch` around the socket's `send`: a failed send is not modelled, and every reply counts as sent.
- The JavaScript `TokenValidator` generator (`lib/token-validator.js`): it is modelled by the same `Tokens.TokenValidator`. Its code differs only in `isValidTimestamp`'s default for `now`, modelled as `Tokens.IsValidTimestampLegacy`.
- The older generation's `Ruleset` wrapper and `RuleDataSnapshot` conversion: the rule set is a parameter judging the whole data tree.
- `index.js`, `request.js` and the synchronised-snapshot helpers are not part of this model.
