/**
 * The entities the DID client handles, the options each operation takes,
 * and the foreign libraries it calls, whose behaviour is left open: every
 * library routine is a total function that may fail.
 */
module Types {
  import opened Wrappers

  type Bytes = seq<bv8>

  /** A public key as the crypto package hands it over (`crypto.PublicKey`). */
  datatype PublicKey = PublicKey(kind: string, material: Bytes)

  /** A private key (`crypto.PrivateKey`): the two families the client signs with, or anything else. */
  datatype PrivateKey =
    | EcdsaPrivateKey(curve: string, publicKey: PublicKey)
    | Ed25519PrivateKey(publicKey: PublicKey)
    | OtherPrivateKey(kind: string)

  /** A JSON Web Key as produced by the key utilities. */
  datatype Jwk = Jwk(kty: string, crv: string, x: string, y: string)

  /** A signing capability bound to a private key and a JWS algorithm name. */
  datatype Signer = Signer(algorithm: string, keyID: string, key: PrivateKey)

  /** What the signer adapter returns: the signer and the matching public JWK. */
  datatype SignerAndKey = SignerAndKey(signer: Signer, publicKey: Jwk)

  /** A DID document public key: identifier, type tag and raw value. */
  datatype DocPublicKey = DocPublicKey(id: string, keyType: string, value: Bytes)

  datatype Service = Service(id: string, serviceType: string, endpoint: string)

  /** The DID document content a recover request replaces the old one with. */
  datatype Document = Document(publicKeys: seq<DocPublicKey>, services: seq<Service>)

  datatype Endpoint = Endpoint(url: string)

  /** The published configuration of a Sidetree node. */
  datatype SidetreeConfig = SidetreeConfig(multiHashAlgorithm: nat)

  /** The four update patch categories. */
  datatype PatchAction = RemovePublicKeys | RemoveServices | AddServices | AddPublicKeys

  /** A patch: its action and the body the patch library built for it. */
  datatype Patch = Patch(action: PatchAction, body: string)

  /** Commitments to the next recovery key and the next update key. */
  datatype Commitments = Commitments(recovery: string, update: string)

  datatype UpdateRequestInfo = UpdateRequestInfo(
    didSuffix: string,
    revealValue: string,
    updateCommitment: string,
    updateKey: Jwk,
    patches: seq<Patch>,
    multihashCode: nat,
    signer: Signer)

  datatype RecoverRequestInfo = RecoverRequestInfo(
    didSuffix: string,
    revealValue: string,
    opaqueDocument: string,
    recoveryCommitment: string,
    updateCommitment: string,
    multihashCode: nat,
    signer: Signer,
    recoveryKey: Jwk)

  datatype DeactivateRequestInfo = DeactivateRequestInfo(
    didSuffix: string,
    revealValue: string,
    recoveryKey: Jwk,
    signer: Signer)

  /** Options of an update; a missing key is `None` (Go's nil). */
  datatype UpdateOpts = UpdateOpts(
    addPublicKeys: seq<DocPublicKey>,
    addServices: seq<Service>,
    removePublicKeys: seq<string>,
    removeServices: seq<string>,
    sidetreeEndpoints: seq<Endpoint>,
    signingKey: Option<PrivateKey>,
    signingKeyID: string,
    nextUpdatePublicKey: Option<PublicKey>,
    revealValue: string)

  datatype RecoverOpts = RecoverOpts(
    publicKeys: seq<DocPublicKey>,
    services: seq<Service>,
    sidetreeEndpoints: seq<Endpoint>,
    signingKey: Option<PrivateKey>,
    signingKeyID: string,
    nextRecoveryPublicKey: Option<PublicKey>,
    nextUpdatePublicKey: Option<PublicKey>,
    revealValue: string)

  datatype DeactivateOpts = DeactivateOpts(
    sidetreeEndpoints: seq<Endpoint>,
    signingKey: Option<PrivateKey>,
    signingKeyID: string,
    revealValue: string)

  /** The zero values the operations start from before applying options. */
  const NoUpdateOpts := UpdateOpts([], [], [], [], [], None, "", None, "")
  const NoRecoverOpts := RecoverOpts([], [], [], None, "", None, None, "")
  const NoDeactivateOpts := DeactivateOpts([], None, "", "")

  /** Key utilities: JWK derivation, JWK parsing, the public half of a JWK, and document key values from a JWK. */
  datatype KeyLibrary = KeyLibrary(
    publicKeyJWK: Option<PublicKey> -> Result<Jwk>,
    parseJWK: Bytes -> Option<Jwk>,
    publicPart: Jwk -> Jwk,
    valueFromJWK: Jwk -> Result<Bytes>)

  /** Commitment scheme: commitment and reveal value of a JWK under a multihash algorithm. */
  datatype CommitmentLibrary = CommitmentLibrary(
    commitment: (Jwk, nat) -> Result<string>,
    revealValue: (Jwk, nat) -> Result<string>)

  /** JSON encoding of each patch category's input, and the patch constructors. */
  datatype PatchLibrary = PatchLibrary(
    marshalIDs: seq<string> -> Result<string>,
    marshalServices: seq<Service> -> Result<string>,
    marshalPublicKeys: seq<DocPublicKey> -> Result<string>,
    newPatch: (PatchAction, string) -> Result<string>)

  /** Document encoding and the Sidetree request encoders. */
  datatype RequestLibrary = RequestLibrary(
    documentJSON: Document -> Result<string>,
    newUpdateRequest: UpdateRequestInfo -> Result<Bytes>,
    newRecoverRequest: RecoverRequestInfo -> Result<Bytes>,
    newDeactivateRequest: DeactivateRequestInfo -> Result<Bytes>)

  datatype Library = Library(
    keys: KeyLibrary,
    commitments: CommitmentLibrary,
    patches: PatchLibrary,
    requests: RequestLibrary)

  /** The client's two services: endpoint discovery for a domain, and a node's configuration. */
  datatype Client = Client(
    endpointService: string -> Result<seq<Endpoint>>,
    configService: string -> Result<SidetreeConfig>)
}
