# trustbloc DID method registrar — Dafny model

This project models the REST operations of the trustbloc DID-method
service. It covers three pieces:

- DID registration, from the decoded request to the response.
- The status decision of DID resolution.
- The choice of endpoints for each operating mode.

Registration is a pure function `Registration.Register`. It folds over the
submitted public-key entries in order, and the first entry that fails ends
the request with that entry's reason. A key flagged `recovery` or `update`
becomes a rotation option that is sent to the backend beside the document.
An ordinary key becomes a verification method, with one reference in the
matching relationship bucket for each purpose tag it lists, and its bytes
are tracked by key id. The services are then copied into the document, the
draft goes to the backend's create operation, and a finished registration
returns one secret entry `identifier#keyId` for each tracked key.

The crypto and encoding libraries and the backend are values of
`Registration.Env`: total functions that may return an error. They cover
base64 decoding, P-256 point unmarshalling, JWK conversion,
verification-method construction, base58 encoding and create. The backend's
read operation and the serialisation of a resolution are parameters of
`Resolve.ResolveDid`.

Modules:

- `Results`: `Option` and a `Result` whose error is its message text.
- `Keys`: bytes, typed public keys, `GetKey`.
- `Document`: relationships and purpose tags, verification methods,
  references, the document with its five buckets and services.
- `Secrets`: the secret bundle, and the `createKeys` loop as a method.
- `Registration`: the request, the per-entry checks (`Classify`), the draft
  update (`Apply`), the key loop (`AddKeys`), `CopyServices`, `Register`.
- `RegistrationFacts`: lemmas over whole requests: fail-fast, rotation
  options, bucket contents, tracked keys, secrets, a worked example.
- `Resolve`: `resolveDIDHandler`'s status and body.
- `Routes`: `GetRESTHandlers` and the two handler lists.

Behaviour of the code that is easy to misread, modelled as written:

- An invalid P-256 point does not fail key decoding. The unmarshal result
  is not checked, so the key exists without coordinates (`P256Key(None)`).
  Whether JWK conversion then fails is up to the `jwkFromKey` collaborator.
- Purposes are an ordered list, not a set. A repeated tag adds a repeated
  reference.
- The create-failure text is `"failed to create did doc : <cause>"`, with a
  space before the colon.
- A recovery or update key is still decoded and type-checked, but its
  purposes are never read. An unknown purpose on such a key does not reject
  the request.

The handler checks each entry and appends its bucket references in a single
pass. The model runs all checks of an entry first (`Classify`) and then
updates the draft (`Apply`). The checks run in the same order and never read
the draft, and any failure discards the whole draft, so both give the same
result.

The key-type names and the purpose tags are defined in files outside this
model: `models.go` of the same package, and the sidetree document package.
The model takes them to be `"Ed25519"` and `"P256"`, and `"authentication"`,
`"assertionMethod"`, `"keyAgreement"`, `"capabilityDelegation"` and
`"capabilityInvocation"`. Every property is stated through the constants
`Ed25519KeyType`, `P256KeyType` and `PurposeTag`, so another spelling
changes no proof.

## Model

| member | source | states |
|---|---|---|
| Keys.GetKey | pkg/restapi/didmethod/operation/operations.go:226-237 | fails exactly when the key type is neither Ed25519 nor P-256, with "invalid key type: <type>"; an Ed25519 key wraps the bytes unchanged; a P-256 key never fails, whatever the bytes, and carries whatever the point decoding gave |
| Keys.InvalidKeyTypeInjective | pkg/restapi/didmethod/operation/operations.go:234-235 | the key-type failure text determines the rejected key type |
| Document.ParsePurpose | pkg/restapi/didmethod/operation/operations.go:172-188 | a tag is recognised exactly when it is one of the five relationship tags, and it is read as the relationship whose tag it is |
| Document.ParsePurposeTag | pkg/restapi/didmethod/operation/operations.go:172-187 | every relationship's tag reads back as that relationship |
| Document.ParsePurposes | pkg/restapi/didmethod/operation/operations.go:171-195 | succeeds exactly when every tag is recognised, giving one relationship per tag in order; otherwise fails with "public key purpose <p> not supported" for the first unrecognised tag |
| Document.PurposeCount | pkg/restapi/didmethod/operation/operations.go:171-187 | the relationships read from a purpose list name each relationship exactly as often as its tag occurs in the list |
| Document.TagCount | pkg/restapi/didmethod/operation/operations.go:171-187 | counting relationships equals counting their tags, for any list paired position by position with its tags |
| Document.AppendReference | pkg/restapi/didmethod/operation/operations.go:173-187 | appends the reference to the end of its own relationship's bucket and leaves the other four buckets and the services unchanged |
| Document.AddReferences | pkg/restapi/didmethod/operation/operations.go:171-187 | each bucket keeps its old contents and gains, at its end, one reference to the same verification method per occurrence of its relationship; services unchanged |
| Secrets.KeyRefInjective | pkg/restapi/didmethod/operation/operations.go:243 | two keys of one document get different secret ids |
| Secrets.BundleSize | pkg/restapi/didmethod/operation/operations.go:239-247 | the bundle has as many entries as there are tracked keys |
| Secrets.ImageSize | pkg/restapi/didmethod/operation/operations.go:242-244 | an injective entry construction gives as many entries as there are keys |
| Secrets.SecretBundle | pkg/restapi/didmethod/operation/operations.go:239-247 | one entry per tracked key id, with id "<did>#<key id>" and the base58 of that key's bytes; every entry's id splits back into the document id and a tracked key id, and its value is that key's base58 |
| Secrets.CreateKeys | pkg/restapi/didmethod/operation/operations.go:239-247 | walking the tracked keys in any order lists exactly the bundle's entries, each once, one per tracked key |
| Registration.Classify | pkg/restapi/didmethod/operation/operations.go:119-196 | a base64 failure gives "failed to decode public key value : <cause>"; a bad key type gives "invalid key type: <type>" even for a recovery or update key; a valid entry is a rotation option exactly when recovery or update is set, recovery winning over update; an ordinary entry keeps its id and decoded bytes and names one relationship per purpose; an unknown purpose on an ordinary key fails the entry |
| Registration.ClassifyDetails | pkg/restapi/didmethod/operation/operations.go:141-196 | once bytes and key type pass, a recovery key becomes a recovery option and otherwise an update key an update option; for an ordinary key a JWK or verification-method error is the entry's reason unchanged, a purpose error is the first unsupported tag's message, and otherwise the entry is its id, bytes, the method built from id, type, empty controller and the key's JWK, and its relationships |
| Registration.Apply | pkg/restapi/didmethod/operation/operations.go:141-198 | a rotation option is appended to the options and touches neither the document nor the tracked keys; an ordinary key leaves the options and services alone, records its bytes under its id (last value wins), and adds its purpose references at the end of each bucket |
| Registration.AddKeys | pkg/restapi/didmethod/operation/operations.go:118-199 | the key loop succeeds exactly when every entry passes its checks, and it never touches the services |
| Registration.CopyServices | pkg/restapi/didmethod/operation/operations.go:201-206 | one document service per submitted service, in order, field for field (id, type, priority, recipient keys, routing keys, endpoint), and each reads back as the submitted service |
| Registration.Register | pkg/restapi/didmethod/operation/operations.go:103-223 | echoes the job id; an empty key list fails with "AddPublicKeys is empty" and calls no backend; a failing entry's reason is the response and no backend is called; the backend is called exactly when the list is non-empty and every entry is valid, with the document the key loop built plus the copied services and with the loop's options; the state is finished exactly when create succeeds, with create's identifier and the secret bundle of the tracked keys; a create error gives "failed to create did doc : <cause>" |
| RegistrationFacts.FailFast | pkg/restapi/didmethod/operation/operations.go:119-199 | after valid entries, the first invalid entry ends the loop with its own reason, whatever entries follow |
| RegistrationFacts.RegisterFailsAtFirstBadKey | pkg/restapi/didmethod/operation/operations.go:119-196 | a request whose first invalid entry is at position i fails with that entry's reason, the job id echoed, and without calling the backend |
| RegistrationFacts.InvalidKeyTypeRejects | pkg/restapi/didmethod/operation/operations.go:132-139 | a decodable entry with an unsupported key type, reached after valid entries, rejects the request with "invalid key type: <type>", whatever its recovery and update flags |
| RegistrationFacts.UnsupportedPurposeRejects | pkg/restapi/didmethod/operation/operations.go:171-195 | an ordinary entry reached after valid entries, whose key, JWK and method succeed, rejects the request with "public key purpose <p> not supported" for its first unsupported tag p, the job id echoed and no backend call |
| RegistrationFacts.RotationIgnoresPurposes | pkg/restapi/didmethod/operation/operations.go:141-151 | a recovery or update entry is treated the same whatever its purposes |
| RegistrationFacts.OptionsCollected | pkg/restapi/didmethod/operation/operations.go:141-151 | the options sent to the backend are one per recovery or update entry, in submitted order, each carrying that entry's key as a recovery option if recovery is set and as an update option otherwise |
| RegistrationFacts.BucketsCollected | pkg/restapi/didmethod/operation/operations.go:171-196 | each bucket holds, entry after entry, one reference to an ordinary entry's verification method per occurrence of its tag in that entry's purposes; rotation entries contribute nothing |
| RegistrationFacts.TrackedKeys | pkg/restapi/didmethod/operation/operations.go:141-198 | the tracked ids are exactly the ordinary entries' ids, including those with no purposes, each mapped to the bytes of the last ordinary entry with that id; rotation keys are not tracked |
| RegistrationFacts.Step | pkg/restapi/didmethod/operation/operations.go:119-198 | one valid entry lets the loop continue with a draft that adds exactly that entry's rotation option, its references under each relationship, and (for an ordinary entry) its id mapped to its bytes |
| RegistrationFacts.OptionsFolded | pkg/restapi/didmethod/operation/operations.go:141-151 | over valid entries the loop appends, entry after entry, each rotation entry's option and nothing for an ordinary entry |
| RegistrationFacts.FoldOptions | pkg/restapi/didmethod/operation/operations.go:141-151 | appending entry after entry yields the starting options followed by the rotation entries' options in submitted order |
| RegistrationFacts.KeysFolded | pkg/restapi/didmethod/operation/operations.go:141-198 | over valid entries the loop's tracked keys are those of remapping, entry after entry, each ordinary entry's id to its bytes |
| RegistrationFacts.FoldDomain | pkg/restapi/didmethod/operation/operations.go:141-198 | remapping keeps the keys already tracked and adds exactly the ordinary entries' ids |
| RegistrationFacts.FoldLast | pkg/restapi/didmethod/operation/operations.go:141-198 | after remapping, an id holds the bytes of the last ordinary entry carrying it |
| RegistrationFacts.FoldUntouched | pkg/restapi/didmethod/operation/operations.go:141-198 | remapping leaves the value of a key no ordinary entry carries unchanged |
| RegistrationFacts.SubmittedOptions | pkg/restapi/didmethod/operation/operations.go:141-151 | a non-empty request of valid entries is submitted with exactly the rotation entries' options |
| RegistrationFacts.SubmittedBuckets | pkg/restapi/didmethod/operation/operations.go:171-196 | every bucket of a submitted document holds exactly the ordinary entries' references, since the loop starts from an empty document |
| RegistrationFacts.SubmissionFromEntries | pkg/restapi/didmethod/operation/operations.go:114-221 | a non-empty request of valid entries submits exactly the rotation entries' options, buckets holding only the ordinary entries' references, and the copied services; a successful create finishes it with the created identifier |
| RegistrationFacts.FinishedState | pkg/restapi/didmethod/operation/operations.go:208-221 | when every entry is valid and create succeeds on the built document, the state is finished with create's identifier and the bundle of the tracked keys |
| RegistrationFacts.BundleOfEntries | pkg/restapi/didmethod/operation/operations.go:239-247 | the bundle of the keys a request tracks has one entry per distinct ordinary key id, each named "<id>#<key id>" with the base58 of the last bytes under that id, and no other entries |
| RegistrationFacts.FinishedSecrets | pkg/restapi/didmethod/operation/operations.go:220-221 | when every entry is valid and create succeeds, the registration is finished and has one secret per distinct ordinary key id, with id "<identifier>#<key id>" and the base58 of the last bytes submitted under it; no other secrets |
| RegistrationFacts.SingleKeyExample | pkg/restapi/didmethod/operation/operations.go:103-223 | one Ed25519 authentication key "k1" in job "j1", with create answering "did:example:abc", gives a document with one authentication reference and a finished state whose only secret is "did:example:abc#k1" |
| Resolve.DidParam | pkg/restapi/didmethod/operation/operations.go:250-252 | a usable value exists exactly when `did` is present and its first value is not empty, and it is that first value |
| Resolve.ResolveDid | pkg/restapi/didmethod/operation/operations.go:249-280 | the status is 400, 500 or 200; no usable `did` gives 400 "url param 'did' is missing"; a read failure gives 400 "failed to resolve did: <cause>"; a serialisation failure after a successful read gives 500 "failed to marshal doc resolution: <cause>"; 200 exactly when read and serialisation both succeed, with content type application/did+ld+json and the serialised bytes |
| Resolve.MissingParamIgnoresBackend | pkg/restapi/didmethod/operation/operations.go:250-256 | without a usable `did` value the reply does not depend on the backend |
| Resolve.OnlyFirstValueMatters | pkg/restapi/didmethod/operation/operations.go:250-258 | further `did` values after the first do not change the reply |
| Routes.RegistrarHandlers | pkg/restapi/didmethod/operation/operations.go:299-302 | a single route: the registration handler on POST /1.0/register |
| Routes.ResolverHandlers | pkg/restapi/didmethod/operation/operations.go:304-307 | a single route: the resolution handler on GET /resolveDID |
| Routes.GetRestHandlers | pkg/restapi/didmethod/operation/operations.go:309-324 | "registrar" serves exactly POST /1.0/register, "resolver" exactly GET /resolveDID, "combined" both with registration first; any other mode fails with "invalid operation mode: <mode>" |
| Routes.CombinedIsUnion | pkg/restapi/didmethod/operation/operations.go:316-320 | the combined mode serves the registrar routes followed by the resolver routes, no path twice |
| Routes.HandlerFollowsPath | pkg/restapi/didmethod/operation/operations.go:299-307 | in every mode, the registration handler sits exactly on POST /1.0/register and the resolution handler on GET /resolveDID |
| Routes.InvalidModeInjective | pkg/restapi/didmethod/operation/operations.go:321-322 | the mode failure text determines the refused mode |

## Left out

- JSON decoding of the request body, with its 400 "invalid request: <cause>" reply, is left out. The model starts from the decoded request.
- Writing replies is left out: `writeResponse`, `writeErrorResponse`, headers, the ignored write failures and logging. These are transport effects.
- Registration replies always have status 200. The model returns the response value.
- `New`, `Config` and `GenesisFileConfig` are left out. They only pass TLS settings, tokens, the domain and genesis files to the backend library's constructor.
- The crypto and encoding libraries are functions in `Registration.Env`: P-256 unmarshalling, JWK conversion, verification-method construction, base64 and base58. Their source is not part of this model. The Ed25519 conversion is not among them: it wraps the decoded bytes unchanged, and `Keys.Ed25519Key` models it directly.
- The backend's create, read and resolution serialisation are parameters, because they are network-backed. Create is reduced to the identifier of the document it returns. The document it returns is not modelled, so registering and then resolving is not related.
- The response's state string ("finished" or failure) is the variant of `DidState`. The constants for it are defined in models.go, which is not part of this model.
- The document fields the handler never sets are not modelled: id, context, created and updated times, and the top-level verification-method list. Verification methods appear only inside bucket references, so one ordinary key yields one method shared by all its references.
- pkg/internal/mock/discovery/mock_service.go is not modelled. It is a test double with no behaviour of its own.
- Secrets.CreateKeys: the order of the returned list is unspecified. It comes from Go map iteration, so the method picks keys by arbitrary choice, and the contract states membership and distinctness but no order.
