/**
 * The signer adapter and the commitment/reveal-value deriver: which JWS
 * algorithm a private key signs with, how document keys holding a JWK are
 * unwrapped, and how commitments and default reveal values are obtained.
 */
module Keys {
  import opened Wrappers
  import opened Types

  /** "ECDSA using P-256 and SHA-256", section 3.1 of RFC 7518. */
  const ES256 := "ES256"
  /** "Edwards-curve Digital Signature Algorithm", section 3.1 of RFC 8037. */
  const EdDSA := "EdDSA"

  /**
   * A signer for the caller's private key and the public key as a JWK.
   * ECDSA keys (of any curve) sign as ES256, Ed25519 keys as EdDSA; a missing
   * or other key is not supported; a JWK derivation error is passed on.
   */
  function GetSigner(lib: KeyLibrary, signingKey: Option<PrivateKey>, keyID: string): (r: Result<SignerAndKey>)
    ensures signingKey.None? || signingKey.value.OtherPrivateKey? ==> r == Err("key not supported")
    ensures r.Ok? <==>
      signingKey.Some? && !signingKey.value.OtherPrivateKey? &&
      lib.publicKeyJWK(Some(signingKey.value.publicKey)).Ok?
    ensures signingKey.Some? && !signingKey.value.OtherPrivateKey? && r.Err? ==>
      r == lib.publicKeyJWK(Some(signingKey.value.publicKey)).PropagateFailure()
    ensures r.Ok? ==>
      r.value.signer.key == signingKey.value && r.value.signer.keyID == keyID &&
      r.value.publicKey == lib.publicKeyJWK(Some(signingKey.value.publicKey)).value
    ensures r.Ok? && signingKey.value.EcdsaPrivateKey? ==> r.value.signer.algorithm == ES256
    ensures r.Ok? && signingKey.value.Ed25519PrivateKey? ==> r.value.signer.algorithm == EdDSA
  {
    match signingKey
    case Some(EcdsaPrivateKey(_, pub)) =>
      var updateKey :- lib.publicKeyJWK(Some(pub));
      Ok(SignerAndKey(Signer(ES256, keyID, signingKey.value), updateKey))
    case Some(Ed25519PrivateKey(pub)) =>
      var updateKey :- lib.publicKeyJWK(Some(pub));
      Ok(SignerAndKey(Signer(EdDSA, keyID, signingKey.value), updateKey))
    case _ =>
      Err("key not supported")
  }

  /**
   * A document key whose value parses as a JWK gets the value of the JWK's
   * public half; a value that does not parse is kept as raw key bytes.
   */
  function UnwrapPubKeyJWK(lib: KeyLibrary, key: DocPublicKey): (r: Result<DocPublicKey>)
    ensures lib.parseJWK(key.value).None? ==> r == Ok(key)
    ensures r.Ok? ==> r.value.id == key.id && r.value.keyType == key.keyType
    ensures lib.parseJWK(key.value).Some? ==>
      var derived := lib.valueFromJWK(lib.publicPart(lib.parseJWK(key.value).value));
      (r.Ok? <==> derived.Ok?) &&
      (r.Ok? ==> r.value.value == derived.value) &&
      (r.Err? ==> r.error == derived.error)
  {
    match lib.parseJWK(key.value)
    case None => Ok(key)
    case Some(jwk) =>
      var value :- lib.valueFromJWK(lib.publicPart(jwk));
      Ok(key.(value := value))
  }

  /** The reveal value derived from a key; never an error: a failed derivation gives "". */
  function DefaultRevealValue(lib: CommitmentLibrary, jwk: Jwk, multihashCode: nat): (r: string)
    ensures lib.revealValue(jwk, multihashCode).Err? ==> r == ""
    ensures lib.revealValue(jwk, multihashCode).Ok? ==> r == lib.revealValue(jwk, multihashCode).value
  {
    match lib.revealValue(jwk, multihashCode)
    case Ok(value) => value
    case Err(_) => ""
  }

  /** The reveal value a builder uses: the caller's if given, otherwise the default for the signing key. */
  function RevealValueFor(lib: CommitmentLibrary, explicit: string, jwk: Jwk, multihashCode: nat): (r: string)
    ensures explicit != "" ==> r == explicit
    ensures explicit == "" ==> r == DefaultRevealValue(lib, jwk, multihashCode)
  {
    if explicit != "" then explicit else DefaultRevealValue(lib, jwk, multihashCode)
  }

  /**
   * The commitments to the next recovery key and the next update key.
   * Both JWKs are derived before either commitment is computed.
   */
  function GetCommitment(lib: Library, config: SidetreeConfig, opts: RecoverOpts): (r: Result<Commitments>)
    ensures
      var recoveryJwk := lib.keys.publicKeyJWK(opts.nextRecoveryPublicKey);
      var updateJwk := lib.keys.publicKeyJWK(opts.nextUpdatePublicKey);
      var alg := config.multiHashAlgorithm;
      && (recoveryJwk.Err? ==> r == Err("failed to get next recovery key : " + recoveryJwk.error))
      && (recoveryJwk.Ok? && updateJwk.Err? ==> r == Err("failed to get next update key : " + updateJwk.error))
      && (recoveryJwk.Ok? && updateJwk.Ok? && lib.commitments.commitment(recoveryJwk.value, alg).Err? ==>
            r == lib.commitments.commitment(recoveryJwk.value, alg).PropagateFailure())
      && (recoveryJwk.Ok? && updateJwk.Ok? && lib.commitments.commitment(recoveryJwk.value, alg).Ok? &&
          lib.commitments.commitment(updateJwk.value, alg).Err? ==>
            r == lib.commitments.commitment(updateJwk.value, alg).PropagateFailure())
      && (r.Ok? <==>
            recoveryJwk.Ok? && updateJwk.Ok? &&
            lib.commitments.commitment(recoveryJwk.value, alg).Ok? &&
            lib.commitments.commitment(updateJwk.value, alg).Ok?)
      && (r.Ok? ==>
            r.value.recovery == lib.commitments.commitment(recoveryJwk.value, alg).value &&
            r.value.update == lib.commitments.commitment(updateJwk.value, alg).value)
  {
    var nextRecoveryKey :- Wrap("failed to get next recovery key : ", lib.keys.publicKeyJWK(opts.nextRecoveryPublicKey));
    var nextUpdateKey :- Wrap("failed to get next update key : ", lib.keys.publicKeyJWK(opts.nextUpdatePublicKey));
    var nextRecoveryCommitment :- lib.commitments.commitment(nextRecoveryKey, config.multiHashAlgorithm);
    var nextUpdateCommitment :- lib.commitments.commitment(nextUpdateKey, config.multiHashAlgorithm);
    Ok(Commitments(nextRecoveryCommitment, nextUpdateCommitment))
  }
}
