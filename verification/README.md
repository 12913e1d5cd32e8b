# Mila license server — a Dafny model of the license store and its handlers

The server keeps the licenses it has issued in one in-memory object,
`{ count, licenses }`. `licenses` maps a license key to a record holding
the product id, product name, buyer e-mail, an `activated` flag and a
creation time. Five HTTP handlers read or change that object:

- the Payhip purchase webhook, which checks a signature and then writes one record;
- license validation;
- the admin routes to list, clear and back up the store.

After a handler changes the store, `saveLicenses` rewrites the license file
with the whole store.

The model has no mutable state. `Handlers.Server` pairs the in-memory store
(`mem`) with the content of the license file (`disk`). Every handler is a
function from a server and a request to a `Step`, which holds the response
(status and JSON body) and the next server.

`Handlers.Validate` and `Handlers.Webhook` are the corrected handlers: they
treat the store as a map of its own keys (see Findings). `Handlers.Handle`,
`Handlers.Run` and every `Traces` lemma are about these corrected handlers.
The handlers as written live in `Findings`.

- `js.dfy` (`Js`): properties of a parsed request, as `undefined` or a string,
  plus JavaScript truthiness and `===` on them.
- `store.dfy` (`Store`): the license record, the store, its count invariant,
  the one-key overwrite the webhook performs, and `Object.keys`.
- `handlers.dfy` (`Handlers`): start-up, `saveLicenses`, the five handlers,
  request dispatch and `Run` over a sequence of requests.
- `traces.dfy` (`Traces`): properties over several requests.
- `findings.dfy` (`Findings`): two handlers as written, where a plain
  JavaScript object differs from a map (see Findings).

Three things are parameters instead of code:

- the webhook signer `Config.sign`, which stands for HMAC-SHA256 over
  `JSON.stringify(body)` under the Payhip API key;
- the webhook's creation timestamp, the `now` of the request;
- the admin key environment variable, an input of `MakeConfig`.

A repeated license key overwrites the stored record. The overwrite resets
`activated` to false and replaces the creation time. Validation never changes
the `activated` flag.

The signer receives the whole body, including its own `signature` field,
because the source hashes the whole body (server.js:50-52). A request is
therefore accepted only when its signature equals an HMAC over text that
contains that same signature. With a real HMAC no request can practically meet
this. The lemmas about accepted webhooks hold because `sign` is an arbitrary
function here.

## Model

| member | source | states |
|---|---|---|
| Store.Put | server.js:72-80 | writing a record under a key stores exactly that record there; every other key keeps its presence and record; the count is recomputed as the number of keys, so it grows by one for a new key and stays the same for an existing one |
| Store.StoreLicense | server.js:73-80 | writing the entry and taking the count as the length of `Object.keys` of the updated map gives the same store as `Put` |
| Store.ObjectKeys | server.js:80 | `Object.keys` lists every stored key exactly once and nothing else, so its length is the number of entries |
| Handlers.MakeConfig | server.js:28 | the admin key is the environment's value when that is non-empty and `mila_admin_secret` otherwise, so it is never empty |
| Handlers.Boot | server.js:32-39 | with no license file the server starts empty, with count 0, and writes that file; with a file it starts from the file's content; in both cases the file equals memory, and the count invariant holds exactly when the loaded file satisfies it |
| Handlers.Save | server.js:34-45 | `saveLicenses` writes the whole store, so afterwards the file equals memory and a restart from that file loads exactly the saved store |
| Handlers.NewLicense | server.js:72-79 | the webhook's record takes `product_id` and `product_name` from the first item and `email` from the body, carries the request's time, and is never activated |
| Handlers.Webhook | server.js:47-86 | 403 exactly when the signature is missing, empty or differs from the signer's value, which takes precedence over 400; 400 exactly when a correctly signed body lacks `items[0]`, its `license_key` or its `product_id`; a rejected request changes neither memory nor file; an accepted one stores the new record under its key, leaves every other key and record as it was, keeps count equal to the number of keys, and saves |
| Handlers.Validate | server.js:88-104 | never changes memory or file; 400 exactly when the key is missing or empty; otherwise success exactly when the key is stored, and a successful answer carries exactly the stored record |
| Handlers.ListAll | server.js:106-111 | never changes state; 403 exactly when the query key differs from the admin key; otherwise it answers with the whole store |
| Handlers.ClearAll | server.js:113-120 | 403 with no change exactly when the key is wrong; with the right key, memory becomes the empty store with count 0 and the file holds the same |
| Handlers.BackupNow | server.js:122-128 | never changes memory; 403 with no change exactly when the key is wrong; with the right key, the file afterwards equals memory |
| Handlers.Handle | server.js:55-128 | every handler keeps the count invariant and keeps the file equal to memory; only the webhook and clear can change memory; requests other than webhook, clear and backup change nothing; a non-200 answer changes nothing; a handler that changes the file leaves it equal to memory |
| Traces.RunKeepsGood | server.js:33-128 | from a state whose count matches its keys and whose file matches memory, any sequence of requests keeps both |
| Traces.ReachableIsGood | server.js:33-39 | a server started without a license file satisfies the count invariant and has its file equal to memory after any sequence of requests |
| Traces.ReadOnlyRunChangesNothing | server.js:88-111 | a sequence of validations and admin listings leaves memory and file exactly as they were |
| Traces.UntouchedKeyPreserved | server.js:72-80 | a key that no accepted webhook in a sequence writes and no authorised clear wipes keeps its record, or stays absent, through the whole sequence; rejected webhooks and unauthorised clears may occur |
| Traces.LookupAfterWebhook | server.js:72-101 | right after an accepted webhook, validating its key succeeds with exactly the record the webhook wrote |
| Traces.RepeatedKeyOverwrites | server.js:72-80 | two accepted webhooks with the same key leave one entry holding the later record, not activated and stamped with the later time; the second write does not change the count |
| Traces.ClearThenLookupFails | server.js:113-120 | after an authorised clear, no license key validates with the corrected own-key lookup; as written, the `Object.prototype` names still validate after a clear (see `Findings.ClearKeepsInheritedNames`) |
| Traces.MissingAdminKeyRefused | server.js:106-128 | for any admin key setting, a request without a query key, or with an empty one, gets 403 from every admin route and changes nothing |
| Findings.Get | server.js:94 | `licenses.licenses[key]` yields the stored record for a stored key; with the ordinary prototype, a truthy value exactly for the `Object.prototype` names, where `__proto__` yields `Object.prototype` itself; once a record is the prototype, `__proto__` yields that record; an inherited method name that is neither stored nor a record field yields the method |
| Findings.ValidateAsWritten | server.js:94-103 | the lookup as written changes nothing, answers 400 for a missing key, returns the stored record for a stored key, and otherwise succeeds for any truthy value the object inherits: with the ordinary prototype, exactly the `Object.prototype` names, where `__proto__` yields `{}` |
| Findings.ClearKeepsInheritedNames | server.js:113-120 | an authorised clear empties the store, yet as written `constructor` still validates afterwards, while the corrected lookup refuses it |
| Findings.ConstructorKeyValidates | server.js:94-101 | on a fresh empty store, the key `constructor` validates as written, and the corrected lookup refuses it |
| Findings.ValidateDiffersOnlyOnInheritedNames | server.js:94-103 | with the ordinary prototype, the lookup as written and the corrected lookup differ in success exactly for inherited names that are not stored keys; they give the same status, and the same record whenever the corrected one succeeds |
| Findings.WebhookAsWritten | server.js:72-85 | as written, an accepted webhook for key `__proto__`, on an object with no own `__proto__` entry, answers success and saves, leaves the own keys unchanged, and makes the record the object's prototype; every rejected webhook changes nothing |
| Findings.ProtoKeyAcceptedButNotStored | server.js:73-85 | a correctly signed webhook for `__proto__` is answered with success, but the record is not an own key, not counted and not saved. Until restart it is served: `__proto__` validates with that record, and so does `product_id` when it is not a stored key. After a restart from the saved file, `__proto__` yields only `{}`. The corrected webhook stores the record |
| Findings.WebhookAgreesOffProtoKey | server.js:72-85 | for every other request the webhook as written and the corrected one give the same answer and the same own entries and file, and the prototype stays as it was |

## Findings

| source | as written | input that shows it | evidently intended | confidence | as-written member | corrected member |
|---|---|---|---|---|---|---|
| server.js:94-95 | `licenses.licenses[Licensekey]` on a plain object is truthy for inherited `Object.prototype` members | `{"Licensekey": "constructor"}` against an empty store answers `success: true` | only stored license keys validate | high, not executed | Findings.ValidateAsWritten, Findings.ConstructorKeyValidates | Handlers.Validate |
| server.js:73 | `licenses.licenses["__proto__"] = {...}` replaces the prototype instead of adding an entry | a signed webhook whose `items[0].license_key` is `__proto__`: answered `success: true` and served as the prototype until restart, but not counted or saved, so lost on restart | every accepted license key is stored and saved | high, not executed | Findings.WebhookAsWritten, Findings.ProtoKeyAcceptedButNotStored | Handlers.Webhook |

## Left out

- Request bodies: a property is either a string or `undefined`. JSON numbers, booleans, `null`, arrays and objects in those positions are not modelled. `null` behaves like `undefined` for every check the handlers make.
- Webhook items: an absent or non-array `items` is modelled as an empty item list. The source indexes `[0]` on any value (server.js:66), so it accepts and stores a non-array object such as `{"0": {"license_key": "K", "product_id": "P"}}`, which the model answers with 400. A first item that is not an object is modelled as an item without fields. The other body fields only affect the signature, which is a parameter.
- HMAC-SHA256 and `JSON.stringify` of the webhook body (server.js:49-51) are the `Config.sign` parameter; only the comparison at server.js:52 is modelled.
- `new Date().toISOString()` (server.js:78) is the request's `now` value.
- File I/O, JSON parsing and serialisation: the license file is the store value itself. JSON's dropping of `undefined` fields is not modelled.
- Startup (server.js:34-35): a loaded file is taken as given. It may break the count invariant, and the invariant lemmas assume a state where it holds.
- The dependency check (server.js:1-11), logging, Express routing, the port and `app.listen`: plumbing with no logic.
- `PAYHIP_PRODUCT_KEY` (server.js:27): read but never used.
- dropboxSync.js: Dropbox network calls with a `.json` file-name filter, and errors are swallowed.
- predeploy.js: environment and SSH provisioning for deployment.
- No file of the repository modelled here contains encryption, retry or remote synchronisation code.
- Handlers.Save: `saveLicenses` is assumed to succeed. If `writeFileSync` throws (disk full, missing permission), the webhook (server.js:73-82) and the clear (server.js:117-118) have already changed memory. `writeFileSync` opens the file with flag `"w"`, which truncates it first. So the file is stale if the open fails, and empty or cut short if the write fails part-way. In that case the next start-up fails in `JSON.parse` (server.js:35). The same holds for test-backup (server.js:126), where memory is unchanged but the file can be damaged. None of these answers 200: the webhook's promise rejects, and the clear and test-backup get Express's 500. So `Handle`'s "a non-200 answer changes nothing" and the file-equals-memory invariant hold only for saves that succeed.
- Handlers.Webhook: the signer always returns a string. When `PAYHIP_API_KEY` is unset, `crypto.createHmac` (server.js:49-51) throws. A webhook with a truthy signature then gets no 403: the handler's promise rejects, with no change to memory or file.
- Findings.ValidateAsWritten: only the webhook and the lookup are modelled on the object with its prototype. The other routes do not read through the prototype. The clear replaces the whole object, which restores the ordinary prototype.
- Concurrency: Node runs each handler to completion without interleaving, so handlers are modelled as atomic steps.
