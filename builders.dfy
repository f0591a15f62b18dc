/**
 * The request builders. Each one checks and derives its inputs in a fixed
 * order, the first failure aborting the build, then assembles the request
 * information record and hands it to the Sidetree request encoder.
 */
module Builders {
  import opened Wrappers
  import opened Types
  import opened Traversal
  import opened Identifiers
  import opened Keys
  import opened Patches

  // ---------------------------------------------------------------- update

  /** The information of an update request, or the first error met while gathering it. */
  function UpdateRequestInfoOf(lib: Library, did: string, config: SidetreeConfig, opts: UpdateOpts): Result<UpdateRequestInfo>
  {
    var nextUpdateKey :- Wrap("failed to get next update key : ", lib.keys.publicKeyJWK(opts.nextUpdatePublicKey));
    var nextUpdateCommitment :- lib.commitments.commitment(nextUpdateKey, config.multiHashAlgorithm);
    var signed :- GetSigner(lib.keys, opts.signingKey, opts.signingKeyID);
    var patches :- UpdatePatches(lib.patches, opts);
    var didSuffix :- GetUniqueSuffix(did);
    var revealValue := RevealValueFor(lib.commitments, opts.revealValue, signed.publicKey, config.multiHashAlgorithm);
    Ok(UpdateRequestInfo(didSuffix, revealValue, nextUpdateCommitment, signed.publicKey, patches,
                         config.multiHashAlgorithm, signed.signer))
  }

  /** The encoded update request. */
  function UpdateRequestOf(lib: Library, did: string, config: SidetreeConfig, opts: UpdateOpts): Result<Bytes>
  {
    var info :- UpdateRequestInfoOf(lib, did, config, opts);
    lib.requests.newUpdateRequest(info)
  }

  /** The update builder as the source runs it, calling the patch assembler. */
  method BuildUpdateRequest(lib: Library, did: string, config: SidetreeConfig, opts: UpdateOpts) returns (r: Result<Bytes>)
    ensures r == UpdateRequestOf(lib, did, config, opts)
  {
    var nextUpdateKey := lib.keys.publicKeyJWK(opts.nextUpdatePublicKey);
    if nextUpdateKey.Err? {
      return Err("failed to get next update key : " + nextUpdateKey.error);
    }
    var nextUpdateCommitment := lib.commitments.commitment(nextUpdateKey.value, config.multiHashAlgorithm);
    if nextUpdateCommitment.Err? {
      return Err(nextUpdateCommitment.error);
    }
    var signed := GetSigner(lib.keys, opts.signingKey, opts.signingKeyID);
    if signed.Err? {
      return Err(signed.error);
    }
    var patches := CreateUpdatePatches(lib.patches, opts);
    if patches.Err? {
      return Err(patches.error);
    }
    var didSuffix := GetUniqueSuffix(did);
    if didSuffix.Err? {
      return Err(didSuffix.error);
    }
    var revealValue := opts.revealValue;
    if revealValue == "" {
      revealValue := DefaultRevealValue(lib.commitments, signed.value.publicKey, config.multiHashAlgorithm);
    }
    r := lib.requests.newUpdateRequest(UpdateRequestInfo(
      didSuffix.value, revealValue, nextUpdateCommitment.value, signed.value.publicKey, patches.value,
      config.multiHashAlgorithm, signed.value.signer));
  }

  /**
   * Failures of an update build come in a fixed order: next update key,
   * its commitment, the signer, the patches, the DID suffix; the first one
   * met is the result, and when none fails the encoder builds the request.
   */
  lemma UpdateFailureOrder(lib: Library, did: string, config: SidetreeConfig, opts: UpdateOpts)
    ensures
      var jwk := lib.keys.publicKeyJWK(opts.nextUpdatePublicKey);
      var alg := config.multiHashAlgorithm;
      var info := UpdateRequestInfoOf(lib, did, config, opts);
      && (jwk.Err? ==> info == Err("failed to get next update key : " + jwk.error))
      && (jwk.Ok? && lib.commitments.commitment(jwk.value, alg).Err? ==>
            info == Err(lib.commitments.commitment(jwk.value, alg).error))
      && (jwk.Ok? && lib.commitments.commitment(jwk.value, alg).Ok? &&
          GetSigner(lib.keys, opts.signingKey, opts.signingKeyID).Err? ==>
            info == Err(GetSigner(lib.keys, opts.signingKey, opts.signingKeyID).error))
      && (jwk.Ok? && lib.commitments.commitment(jwk.value, alg).Ok? &&
          GetSigner(lib.keys, opts.signingKey, opts.signingKeyID).Ok? && UpdatePatches(lib.patches, opts).Err? ==>
            info == Err(UpdatePatches(lib.patches, opts).error))
      && (jwk.Ok? && lib.commitments.commitment(jwk.value, alg).Ok? &&
          GetSigner(lib.keys, opts.signingKey, opts.signingKeyID).Ok? && UpdatePatches(lib.patches, opts).Ok? &&
          ':' !in did ==>
            info == Err("unique suffix not provided in id [" + did + "]"))
      && (info.Ok? <==>
            jwk.Ok? && lib.commitments.commitment(jwk.value, alg).Ok? &&
            GetSigner(lib.keys, opts.signingKey, opts.signingKeyID).Ok? && UpdatePatches(lib.patches, opts).Ok? &&
            ':' in did)
      && (info.Err? ==> UpdateRequestOf(lib, did, config, opts) == Err(info.error))
      && (info.Ok? ==> UpdateRequestOf(lib, did, config, opts) == lib.requests.newUpdateRequest(info.value))
  {
  }

  /**
   * What flows into a successful update request: the suffix after the last
   * colon of the DID, the commitment to the next update key, the signing
   * key's JWK and signer, one patch per requested category in the fixed
   * order, the node's multihash algorithm, and the caller's reveal value
   * unless it is empty, in which case the default derived from the signing key.
   */
  lemma UpdateRequestFields(lib: Library, did: string, config: SidetreeConfig, opts: UpdateOpts)
    requires UpdateRequestInfoOf(lib, did, config, opts).Ok?
    ensures
      var info := UpdateRequestInfoOf(lib, did, config, opts).value;
      var alg := config.multiHashAlgorithm;
      && ':' !in info.didSuffix && did == did[..|did| - |info.didSuffix| - 1] + ":" + info.didSuffix
      && info.updateCommitment == lib.commitments.commitment(lib.keys.publicKeyJWK(opts.nextUpdatePublicKey).value, alg).value
      && info.multihashCode == alg
      && opts.signingKey.Some? && info.signer.key == opts.signingKey.value && info.signer.keyID == opts.signingKeyID
      && (opts.signingKey.value.EcdsaPrivateKey? ==> info.signer.algorithm == ES256)
      && (opts.signingKey.value.Ed25519PrivateKey? ==> info.signer.algorithm == EdDSA)
      && info.updateKey == lib.keys.publicKeyJWK(Some(opts.signingKey.value.publicKey)).value
      && UpdatePatches(lib.patches, opts).Ok? && info.patches == UpdatePatches(lib.patches, opts).value
      && |info.patches| == RequestedCount(opts)
      && (forall a :: Requested(opts, a) <==> exists i :: 0 <= i < |info.patches| && info.patches[i].action == a)
      && (forall i, j :: 0 <= i < j < |info.patches| ==> Rank(info.patches[i].action) < Rank(info.patches[j].action))
      && (opts.revealValue != "" ==> info.revealValue == opts.revealValue)
      && (opts.revealValue == "" ==> info.revealValue == DefaultRevealValue(lib.commitments, info.updateKey, alg))
  {
    UpdatePatchesShape(lib.patches, opts);
  }

  // --------------------------------------------------------------- recover

  /** Each document key unwrapped from JWK form, stopping at the first key that fails. */
  function UnwrapKeys(lib: KeyLibrary, keys: seq<DocPublicKey>): Result<seq<DocPublicKey>>
  {
    Traverse(UnwrapStep(lib), keys)
  }

  function UnwrapStep(lib: KeyLibrary): DocPublicKey -> Result<DocPublicKey>
  {
    key => UnwrapPubKeyJWK(lib, key)
  }

  /** The information of a recover request, or the first error met while gathering it. */
  function RecoverRequestInfoOf(lib: Library, did: string, config: SidetreeConfig, opts: RecoverOpts): Result<RecoverRequestInfo>
  {
    var parsedKeys :- UnwrapKeys(lib.keys, opts.publicKeys);
    var document :- Wrap("failed to get document bytes : ", lib.requests.documentJSON(Document(parsedKeys, opts.services)));
    var commitments :- GetCommitment(lib, config, opts);
    var signed :- GetSigner(lib.keys, opts.signingKey, opts.signingKeyID);
    var didSuffix :- GetUniqueSuffix(did);
    var revealValue := RevealValueFor(lib.commitments, opts.revealValue, signed.publicKey, config.multiHashAlgorithm);
    Ok(RecoverRequestInfo(didSuffix, revealValue, document, commitments.recovery, commitments.update,
                          config.multiHashAlgorithm, signed.signer, signed.publicKey))
  }

  /** The encoded recover request; an encoder error is wrapped. */
  function RecoverRequestOf(lib: Library, did: string, config: SidetreeConfig, opts: RecoverOpts): Result<Bytes>
  {
    var info :- RecoverRequestInfoOf(lib, did, config, opts);
    Wrap("failed to create sidetree request: ", lib.requests.newRecoverRequest(info))
  }

  /** The recover builder as the source runs it: a loop unwraps the document keys one by one. */
  method BuildRecoverRequest(lib: Library, did: string, config: SidetreeConfig, opts: RecoverOpts) returns (r: Result<Bytes>)
    ensures r == RecoverRequestOf(lib, did, config, opts)
  {
    var publicKeys := opts.publicKeys;
    var parsedKeys: seq<DocPublicKey> := [];
    for i := 0 to |publicKeys|
      invariant Traverse(UnwrapStep(lib.keys), publicKeys[..i]) == Ok(parsedKeys)
    {
      var parsedKey := UnwrapPubKeyJWK(lib.keys, publicKeys[i]);
      TraverseSnoc(UnwrapStep(lib.keys), publicKeys[..i], publicKeys[i]);
      assert publicKeys[..i + 1] == publicKeys[..i] + [publicKeys[i]];
      if parsedKey.Err? {
        TraverseErrExtends(UnwrapStep(lib.keys), publicKeys[..i + 1], publicKeys[i + 1..]);
        assert publicKeys[..i + 1] + publicKeys[i + 1..] == publicKeys;
        return Err(parsedKey.error);
      }
      parsedKeys := parsedKeys + [parsedKey.value];
    }
    assert publicKeys[..|publicKeys|] == publicKeys;

    var docBytes := lib.requests.documentJSON(Document(parsedKeys, opts.services));
    if docBytes.Err? {
      return Err("failed to get document bytes : " + docBytes.error);
    }
    var commitments := GetCommitment(lib, config, opts);
    if commitments.Err? {
      return Err(commitments.error);
    }
    var signed := GetSigner(lib.keys, opts.signingKey, opts.signingKeyID);
    if signed.Err? {
      return Err(signed.error);
    }
    var didSuffix := GetUniqueSuffix(did);
    if didSuffix.Err? {
      return Err(didSuffix.error);
    }
    var revealValue := opts.revealValue;
    if revealValue == "" {
      revealValue := DefaultRevealValue(lib.commitments, signed.value.publicKey, config.multiHashAlgorithm);
    }
    var req := lib.requests.newRecoverRequest(RecoverRequestInfo(
      didSuffix.value, revealValue, docBytes.value, commitments.value.recovery, commitments.value.update,
      config.multiHashAlgorithm, signed.value.signer, signed.value.publicKey));
    if req.Err? {
      return Err("failed to create sidetree request: " + req.error);
    }
    return req;
  }

  /**
   * The unwrapped keys: one per document key, same identifier and type,
   * each unwrapped on its own; the first key that fails decides the error.
   */
  lemma UnwrapKeysShape(lib: KeyLibrary, keys: seq<DocPublicKey>)
    ensures UnwrapKeys(lib, keys).Ok? <==> forall i :: 0 <= i < |keys| ==> UnwrapPubKeyJWK(lib, keys[i]).Ok?
    ensures UnwrapKeys(lib, keys).Ok? ==>
      var parsed := UnwrapKeys(lib, keys).value;
      && |parsed| == |keys|
      && forall i :: 0 <= i < |keys| ==>
           parsed[i] == UnwrapPubKeyJWK(lib, keys[i]).value &&
           parsed[i].id == keys[i].id && parsed[i].keyType == keys[i].keyType &&
           (lib.parseJWK(keys[i].value).None? ==> parsed[i] == keys[i])
    ensures forall k :: (0 <= k < |keys| && UnwrapPubKeyJWK(lib, keys[k]).Err? &&
                         (forall j :: 0 <= j < k ==> UnwrapPubKeyJWK(lib, keys[j]).Ok?)) ==>
      UnwrapKeys(lib, keys) == Err(UnwrapPubKeyJWK(lib, keys[k]).error)
  {
    TraverseOk(UnwrapStep(lib), keys);
    forall k | 0 <= k < |keys| && UnwrapPubKeyJWK(lib, keys[k]).Err? &&
        (forall j :: 0 <= j < k ==> UnwrapPubKeyJWK(lib, keys[j]).Ok?)
      ensures UnwrapKeys(lib, keys) == Err(UnwrapPubKeyJWK(lib, keys[k]).error)
    {
      TraverseFirstError(UnwrapStep(lib), keys, k);
    }
  }

  /**
   * Failures of a recover build come in a fixed order: document keys, the
   * document encoding, the commitments, the signer, the DID suffix, and
   * last the request encoder, whose error is wrapped; when none fails the
   * request is the encoder's.
   */
  lemma RecoverFailureOrder(lib: Library, did: string, config: SidetreeConfig, opts: RecoverOpts)
    ensures
      var keys := UnwrapKeys(lib.keys, opts.publicKeys);
      var info := RecoverRequestInfoOf(lib, did, config, opts);
      && (keys.Err? ==> info == Err(keys.error))
      && (keys.Ok? && lib.requests.documentJSON(Document(keys.value, opts.services)).Err? ==>
            info == Err("failed to get document bytes : " + lib.requests.documentJSON(Document(keys.value, opts.services)).error))
      && (keys.Ok? && lib.requests.documentJSON(Document(keys.value, opts.services)).Ok? &&
          GetCommitment(lib, config, opts).Err? ==>
            info == Err(GetCommitment(lib, config, opts).error))
      && (keys.Ok? && lib.requests.documentJSON(Document(keys.value, opts.services)).Ok? &&
          GetCommitment(lib, config, opts).Ok? && GetSigner(lib.keys, opts.signingKey, opts.signingKeyID).Err? ==>
            info == Err(GetSigner(lib.keys, opts.signingKey, opts.signingKeyID).error))
      && (keys.Ok? && lib.requests.documentJSON(Document(keys.value, opts.services)).Ok? &&
          GetCommitment(lib, config, opts).Ok? && GetSigner(lib.keys, opts.signingKey, opts.signingKeyID).Ok? &&
          ':' !in did ==>
            info == Err("unique suffix not provided in id [" + did + "]"))
      && (info.Ok? <==>
            keys.Ok? && lib.requests.documentJSON(Document(keys.value, opts.services)).Ok? &&
            GetCommitment(lib, config, opts).Ok? && GetSigner(lib.keys, opts.signingKey, opts.signingKeyID).Ok? &&
            ':' in did)
      && (info.Err? ==> RecoverRequestOf(lib, did, config, opts) == Err(info.error))
      && (info.Ok? && lib.requests.newRecoverRequest(info.value).Ok? ==>
            RecoverRequestOf(lib, did, config, opts) == lib.requests.newRecoverRequest(info.value))
      && (info.Ok? && lib.requests.newRecoverRequest(info.value).Err? ==>
            RecoverRequestOf(lib, did, config, opts) ==
              Err("failed to create sidetree request: " + lib.requests.newRecoverRequest(info.value).error))
  {
  }

  /**
   * What flows into a successful recover request: the document of the
   * unwrapped keys and the services, the commitments to the next recovery
   * and next update keys, the signing key's JWK as recovery key, the
   * suffix, the multihash algorithm, and the reveal value rule.
   */
  lemma RecoverRequestFields(lib: Library, did: string, config: SidetreeConfig, opts: RecoverOpts)
    requires RecoverRequestInfoOf(lib, did, config, opts).Ok?
    ensures
      var info := RecoverRequestInfoOf(lib, did, config, opts).value;
      var alg := config.multiHashAlgorithm;
      var keys := UnwrapKeys(lib.keys, opts.publicKeys);
      && keys.Ok? && |keys.value| == |opts.publicKeys|
      && (forall i :: 0 <= i < |opts.publicKeys| ==>
            keys.value[i].id == opts.publicKeys[i].id && keys.value[i].keyType == opts.publicKeys[i].keyType)
      && lib.requests.documentJSON(Document(keys.value, opts.services)).Ok?
      && info.opaqueDocument == lib.requests.documentJSON(Document(keys.value, opts.services)).value
      && lib.keys.publicKeyJWK(opts.nextRecoveryPublicKey).Ok? && lib.keys.publicKeyJWK(opts.nextUpdatePublicKey).Ok?
      && lib.commitments.commitment(lib.keys.publicKeyJWK(opts.nextRecoveryPublicKey).value, alg).Ok?
      && lib.commitments.commitment(lib.keys.publicKeyJWK(opts.nextUpdatePublicKey).value, alg).Ok?
      && info.recoveryCommitment == lib.commitments.commitment(lib.keys.publicKeyJWK(opts.nextRecoveryPublicKey).value, alg).value
      && info.updateCommitment == lib.commitments.commitment(lib.keys.publicKeyJWK(opts.nextUpdatePublicKey).value, alg).value
      && info.multihashCode == alg
      && ':' !in info.didSuffix && did == did[..|did| - |info.didSuffix| - 1] + ":" + info.didSuffix
      && opts.signingKey.Some? && info.signer.key == opts.signingKey.value && info.signer.keyID == opts.signingKeyID
      && (opts.signingKey.value.EcdsaPrivateKey? ==> info.signer.algorithm == ES256)
      && (opts.signingKey.value.Ed25519PrivateKey? ==> info.signer.algorithm == EdDSA)
      && info.signer == GetSigner(lib.keys, opts.signingKey, opts.signingKeyID).value.signer
      && info.recoveryKey == lib.keys.publicKeyJWK(Some(opts.signingKey.value.publicKey)).value
      && (opts.revealValue != "" ==> info.revealValue == opts.revealValue)
      && (opts.revealValue == "" ==> info.revealValue == DefaultRevealValue(lib.commitments, info.recoveryKey, alg))
  {
    var keys := UnwrapKeys(lib.keys, opts.publicKeys);
    UnwrapKeysShape(lib.keys, opts.publicKeys);
    assert keys.Ok?;
    var document := lib.requests.documentJSON(Document(keys.value, opts.services));
    assert document.Ok?;
    var commitments := GetCommitment(lib, config, opts);
    assert commitments.Ok?;
    var signed := GetSigner(lib.keys, opts.signingKey, opts.signingKeyID);
    assert signed.Ok?;
    var info := RecoverRequestInfoOf(lib, did, config, opts).value;
    assert info.opaqueDocument == document.value;
    assert info.recoveryCommitment == commitments.value.recovery && info.updateCommitment == commitments.value.update;
    assert info.signer == signed.value.signer && info.recoveryKey == signed.value.publicKey;
  }

  // ------------------------------------------------------------ deactivate

  /** The information of a deactivate request, or the first error met while gathering it. */
  function DeactivateRequestInfoOf(lib: Library, did: string, config: SidetreeConfig, opts: DeactivateOpts): Result<DeactivateRequestInfo>
  {
    var signed :- GetSigner(lib.keys, opts.signingKey, opts.signingKeyID);
    var didSuffix :- GetUniqueSuffix(did);
    var revealValue := RevealValueFor(lib.commitments, opts.revealValue, signed.publicKey, config.multiHashAlgorithm);
    Ok(DeactivateRequestInfo(didSuffix, revealValue, signed.publicKey, signed.signer))
  }

  /**
   * The encoded deactivate request: a missing or unsupported signing key or
   * a DID without a colon is reported before the encoder is reached, and an
   * encoder error is passed on unwrapped.
   */
  function BuildDeactivateRequest(lib: Library, did: string, config: SidetreeConfig, opts: DeactivateOpts): (r: Result<Bytes>)
    ensures GetSigner(lib.keys, opts.signingKey, opts.signingKeyID).Err? ==>
      r == Err(GetSigner(lib.keys, opts.signingKey, opts.signingKeyID).error)
    ensures GetSigner(lib.keys, opts.signingKey, opts.signingKeyID).Ok? && ':' !in did ==>
      r == Err("unique suffix not provided in id [" + did + "]")
    ensures r.Ok? ==> GetSigner(lib.keys, opts.signingKey, opts.signingKeyID).Ok? && ':' in did
    ensures DeactivateRequestInfoOf(lib, did, config, opts).Ok? ==>
      r == lib.requests.newDeactivateRequest(DeactivateRequestInfoOf(lib, did, config, opts).value)
  {
    var info :- DeactivateRequestInfoOf(lib, did, config, opts);
    lib.requests.newDeactivateRequest(info)
  }

  /**
   * A deactivate build fails first on the signer, then on the DID suffix;
   * on success the request carries the suffix, the signing key's JWK as
   * recovery key, its signer, and the reveal value rule.
   */
  lemma DeactivateRequestFields(lib: Library, did: string, config: SidetreeConfig, opts: DeactivateOpts)
    ensures
      var signed := GetSigner(lib.keys, opts.signingKey, opts.signingKeyID);
      var info := DeactivateRequestInfoOf(lib, did, config, opts);
      && (signed.Err? ==> info == Err(signed.error))
      && (signed.Ok? && ':' !in did ==> info == Err("unique suffix not provided in id [" + did + "]"))
      && (info.Ok? <==> signed.Ok? && ':' in did)
      && (info.Err? ==> BuildDeactivateRequest(lib, did, config, opts) == Err(info.error))
      && (info.Ok? ==>
            && ':' !in info.value.didSuffix
            && did == did[..|did| - |info.value.didSuffix| - 1] + ":" + info.value.didSuffix
            && info.value.recoveryKey == signed.value.publicKey
            && info.value.signer == signed.value.signer
            && (opts.revealValue != "" ==> info.value.revealValue == opts.revealValue)
            && (opts.revealValue == "" ==>
                  info.value.revealValue == DefaultRevealValue(lib.commitments, signed.value.publicKey, config.multiHashAlgorithm)))
  {
  }
}
