# Sidetree DID client: request-building pipeline

This project models the client side of a Sidetree-based DID method. The client takes a caller's intent to update, recover or deactivate a DID and turns it into a Sidetree operation request for a node. The pipeline has these steps:

1. Apply the caller's functional options.
2. Check the required keys.
3. Choose the node endpoint, either from an explicit list or by discovery for a domain.
4. Fetch the node's multihash algorithm.
5. Gather the request information; the first failure met is the result. Each builder has its own order:
   - update: the next update key's JWK and commitment, the signer (ES256 for ECDSA keys, EdDSA for Ed25519 keys), the patches in the fixed order remove keys, remove services, add services, add keys, then the DID's unique suffix;
   - recover: the new document first (its keys unwrapped one by one, then encoded), then the commitments to the next recovery and next update keys, the signer, then the DID's unique suffix;
   - deactivate: the signer, then the DID's unique suffix.
6. Use the caller's reveal value, or default it from the signing key.
7. Hand the request information to the Sidetree request encoder.

The modules follow the parts of `pkg/did/client.go`:

- `Types`: the entities, the three option records, and the foreign libraries. The foreign libraries are key/JWK utilities, the commitment scheme, the patch constructors and the request encoders. Each one is a total function that may fail, so every proof holds whatever those libraries do.
- `Options`: the loop that applies functional options.
- `Identifiers`: unique-suffix extraction.
- `Keys`: the signer adapter, JWK unwrapping, default reveal value and commitments.
- `Endpoints`: endpoint choice.
- `Traversal`: the "map a fallible step, stop at the first error" idiom, used by both the patch assembler and the recover key loop.
- `Patches`: the patch assembler.
- `Builders`: the three request builders.
- `DidClient`: `UpdateDID`, `RecoverDID` and `DeactivateDID`.

The code runs imperatively in three places: the option loop, the patch list grown by `append`, and the recover loop over document keys. These are modelled as methods. Each method is proved equal to a function that defines it, and the lemmas are stated about those functions. Builders that call one of these methods are methods too. Everything else is a function.

The public operations do not post anything. Each returns two things:
- the request and the endpoint it would be posted to, or the error;
- the calls the operation made to the discovery and configuration services.

The second part expresses "this check happens before any lookup" as a property of the model.

Three behaviours of the code are easy to overlook, and the model keeps them:

- Every ECDSA private key, whatever its curve, gets the algorithm name ES256.
- The builders take the DID suffix last: after the commitments, the signer and the patches.
- Recovery does not require the list of document public keys.

## Model

| member | source | states |
|---|---|---|
| `Options.ApplyOptions` | pkg/did/client.go:89-93 | the option loop leaves the record that results from applying every option, first to last, to the zero record |
| `Options.AppliedConcat` | pkg/did/client.go:128-132 | applying two batches of options in turn is the same as applying their concatenation |
| `Identifiers.LastIndex` | pkg/did/client.go:354 | the last position of the character, or -1 exactly when it is absent; no occurrence follows it |
| `Identifiers.GetUniqueSuffix` | pkg/did/client.go:353-360 | fails exactly when the id has no colon, with the id in the message; otherwise the result has no colon and the id is a prefix, a colon and the result |
| `Identifiers.SuffixOfJoined` | pkg/did/client.go:353-360 | for any prefix and any colon-free suffix, extracting from `prefix + ":" + suffix` gives the suffix back |
| `Keys.GetSigner` | pkg/did/client.go:332-351 | an ECDSA key signs as ES256 and an Ed25519 key as EdDSA, with the caller's key id, and comes with its derived public JWK; a missing or other key gives "key not supported"; a JWK derivation error is passed on |
| `Keys.UnwrapPubKeyJWK` | pkg/did/client.go:237-256 | a value that does not parse as a JWK leaves the key unchanged; a parsed JWK's public value replaces the value, or its error is returned; id and type are kept |
| `Keys.DefaultRevealValue` | pkg/did/client.go:566-574 | never an error: the derived reveal value, or "" when derivation fails |
| `Keys.RevealValueFor` | pkg/did/client.go:286-291 | the caller's reveal value when it is non-empty, otherwise the default derived from the signing key's JWK (the same rule at client.go:317-322 and 483-489) |
| `Keys.GetCommitment` | pkg/did/client.go:503-525 | derives both next-key JWKs (recovery first, each error wrapped) before either commitment; the first failing step's error is the result (both JWK errors wrapped, both commitment errors passed on); succeeds exactly when all four steps do, and then returns the commitment of each JWK |
| `Endpoints.GetEndpoint` | pkg/did/client.go:213-235 | empty domain and empty list give the "domain is empty" error; discovery errors are wrapped; an empty discovery gives "list of endpoints is empty"; otherwise the URL of the first endpoint of the list in effect (discovered when a domain is given, explicit otherwise) |
| `Endpoints.NoDiscoveryWithoutDomain` | pkg/did/client.go:214-234 | without a domain the endpoint service is never consulted: any two clients give the same result, the first explicit URL |
| `Endpoints.DomainOverridesExplicit` | pkg/did/client.go:218-231 | with a domain the caller's endpoint list has no effect |
| `Patches.CreateRemovePublicKeysPatch` | pkg/did/client.go:404-411 | a built patch is a remove-public-keys patch; building succeeds exactly when encoding the key ids and constructing the patch both do |
| `Patches.CreateRemoveServicesPatch` | pkg/did/client.go:413-420 | a built patch is a remove-services patch; it succeeds exactly when encoding and construction do |
| `Patches.CreateAddServicesPatch` | pkg/did/client.go:422-429 | a built patch is an add-services patch; it succeeds exactly when encoding and construction do |
| `Patches.CreateAddPublicKeysPatch` | pkg/did/client.go:431-443 | a built patch is an add-public-keys patch; it succeeds exactly when encoding and construction do |
| `Patches.RequestedCategoriesOrder` | pkg/did/client.go:365-392 | the categories attempted are exactly those with a non-empty input, each once, in the fixed order, as many as there are non-empty inputs |
| `Patches.UpdatePatchesShape` | pkg/did/client.go:362-402 | the patch list succeeds exactly when every requested category builds; it then has one patch per requested category, none for the others, in the fixed order, and its length is the number of non-empty inputs |
| `Patches.NoPatchesWhenNothingRequested` | pkg/did/client.go:362-402 | with every input empty the result is an empty list and no error |
| `Patches.UpdatePatchesFirstError` | pkg/did/client.go:365-399 | when a requested category fails and every earlier one builds, that category's error is the result: later categories do not matter |
| `Patches.AssembleStage` | pkg/did/client.go:365-399 | any of the four category steps: it aborts the whole list with its error, appends its patch, or is skipped when its input is empty |
| `Patches.CreateUpdatePatches` | pkg/did/client.go:362-402 | the four successive appends with early returns compute exactly the patch list defined by the assembler function, error included |
| `Builders.BuildUpdateRequest` | pkg/did/client.go:258-302 | the update builder returns the encoding of the update request information defined for it, or the first error |
| `Builders.UpdateFailureOrder` | pkg/did/client.go:261-301 | update failures come in order: next-update JWK (wrapped), its commitment, signer, patches, DID suffix; the first one met is the result; the information is gathered exactly when none of them fails, and then the request is the encoder's result on it |
| `Builders.UpdateRequestFields` | pkg/did/client.go:286-301 | a built update carries the suffix after the DID's last colon, the commitment of the next-update JWK, the signer and JWK of the signing key, exactly the patch list the assembler builds (one patch per requested category in order), the node's multihash algorithm, and the caller's reveal value when non-empty, otherwise the default from the signing key |
| `Builders.UnwrapKeysShape` | pkg/did/client.go:450-459 | the key loop succeeds exactly when every key unwraps; it then yields one unwrapped key per input key, in order, with id and type kept; otherwise the first failing key's error |
| `Builders.BuildRecoverRequest` | pkg/did/client.go:445-501 | the recover builder, loop included, returns the recover request defined for it or the first error; an encoder error is wrapped |
| `Builders.RecoverFailureOrder` | pkg/did/client.go:452-500 | recover failures come in order: document keys, document encoding (wrapped), commitments, signer, DID suffix, then the encoder (wrapped); the information is gathered exactly when none of the first five fails, and a successful encoding is the request |
| `Builders.RecoverRequestFields` | pkg/did/client.go:461-495 | a built recover carries the encoded document of the unwrapped keys and the services, both next-key commitments, the signing key's JWK as recovery key and the signer the adapter derives (ES256 for ECDSA, EdDSA for Ed25519, with the caller's key id), the suffix, the algorithm and the reveal-value rule |
| `Builders.BuildDeactivateRequest` | pkg/did/client.go:304-330 | a signer error, then a DID without a colon, is the result before the encoder is reached; a success needs a supported key and a colon; otherwise the encoder's result on the gathered information, its error unwrapped |
| `Builders.DeactivateRequestFields` | pkg/did/client.go:304-330 | deactivate fails first on the signer, then on the suffix, and succeeds otherwise; it carries the suffix, the signing key's JWK as recovery key, its signer and the reveal-value rule |
| `DidClient.ValidateRecoverReq` | pkg/did/client.go:197-211 | a missing next recovery key is reported whatever else is missing, then a missing next update key, then a missing signing key; it passes exactly when all three are present |
| `DidClient.Submit` | pkg/did/client.go:103-121 | after validation: discovery is called exactly when a domain is given; an endpoint error stops before any configuration fetch; a configuration-fetch error is returned as is; a build error is prefixed with the operation's context; when every step succeeds the result is the request built with the fetched configuration, dispatched to the chosen endpoint |
| `DidClient.UpdateDID` | pkg/did/client.go:87-124 | a missing signing key, then a missing next update key, fail with their messages and with no service call; otherwise endpoint, configuration and build run in turn |
| `DidClient.RecoverDID` | pkg/did/client.go:126-160 | a failed recover validation is returned with no service call; otherwise endpoint, configuration and build run in turn |
| `DidClient.DeactivateDID` | pkg/did/client.go:162-195 | a missing signing key fails with "signing key is required" and no service call; otherwise endpoint, configuration and build run in turn |

## Left out

- Posting the request (`sendRequest`, `closeResponseBody`) is network I/O. The operations stop at the request and endpoint they would post to. So the send-failure messages, the auth header and response handling are not modelled.
- `New` is transport and TLS wiring. A `Client` here is just its endpoint-discovery and configuration services, given as functions.
- The foreign libraries are parameters whose results are left open: key-to-JWK derivation, JWK parsing and its public half, document key values from a JWK, commitments and reveal values, JSON encoding, the patch constructors, document encoding and the Sidetree request encoders. So properties of the hashing itself, such as different algorithms giving different commitments, are not modelled. Real ECDSA and Ed25519 signing is also out; a signer is a value tagged with its algorithm name.
- Encoding a list of document keys and populating its raw keys are one fallible library step here, so the "invalid key type" check inside the document package is not modelled. Populating raw services and encoding them are likewise one step.
- `Keys.UnwrapPubKeyJWK`: the document package's `GetValueFromJWK` is modelled as replacing only the key's value. Other `PublicKey` fields are not part of this model.
- `Patches.CreateRemovePublicKeysPatch`: states the action and when construction succeeds. The body and the error text are whatever the library returns.
- `Patches.CreateRemoveServicesPatch`: states the action and when construction succeeds. The body and the error text are whatever the library returns.
- `Patches.CreateAddServicesPatch`: states the action and when construction succeeds. The body and the error text are whatever the library returns.
- `Patches.CreateAddPublicKeysPatch`: states the action and when construction succeeds. The body and the error text are whatever the library returns.
- Functional options are modelled as functions from an options record to an options record, applied in order. They do not mutate a shared struct in place, so aliasing between options is not modelled.
- Go's nil slice and empty slice are the same empty sequence here, so the JSON `null` versus `[]` distinction is lost.
- A typed nil private key, which would make the source panic, is not modelled. A missing key is `None`.
- The error log written by `defaultRevealValue` is dropped. Only the returned value is modelled.
- The multihash algorithm code, a Go `uint`, is a natural number. No width limit applies, since the code is only passed through.
- Strings are sequences of characters. `strings.LastIndex` works on bytes, which gives the same split for the ASCII colon.
