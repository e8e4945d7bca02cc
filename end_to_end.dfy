/** The gRPC service wired to the KMS adapter, as the plugin's entry point
    wires them: what a caller of the Kubernetes KMS API observes of the
    backend through both layers. */
module EndToEnd {
  import opened Wrappers
  import K = InfisicalKms
  import P = Plugin

  /** The adapter seen through the Service interface. Its Encrypt always
      returns a response, empty on failure, so the pointer is never nil. */
  function AdapterService(s: K.InfisicalKmsService): (service: P.Service)
    ensures P.StatusRespondsOrFails(service)
    ensures forall uid, data :: P.EncryptRespondsOrFails(service, uid, data)
  {
    P.Service(
      () => K.Status(s),
      (uid, data) => var e := K.Encrypt(s, uid, data); K.Return(Some(e.value), e.err, e.calls),
      (uid, req) => K.Decrypt(s, uid, req))
  }

  /** The gRPC service over the adapter. */
  function Wired(addr: string, s: K.InfisicalKmsService): P.GrpcService {
    P.NewGrpcService(addr, AdapterService(s))
  }

  /** A backend that decrypts its own ciphertexts: decrypting, under the same
      key, what it returned for an encryption of p yields p. */
  ghost predicate DecryptsOwnCiphertexts(backend: K.Backend) {
    forall key: string, p: K.Bytes {:trigger backend(K.EncryptData(key, p))} ::
      backend(K.EncryptData(key, p)).Success? ==>
        backend(K.DecryptData(key, backend(K.EncryptData(key, p)).value)) == Success(p)
  }

  /** A successful Encrypt response carries the configured key id and no
      annotations, and the ciphertext the backend produced for the caller's
      plaintext under that key; it fails exactly when the backend does. */
  lemma EncryptUsesConfiguredKey(addr: string, s: K.InfisicalKmsService, req: P.EncryptRequest)
    ensures var r := P.Encrypt(Wired(addr, s), req);
      && r.calls == [K.EncryptData(s.kmsKeyId, req.plaintext)]
      && (r.err.None? <==> s.backend(r.calls[0]).Success?)
      && (r.err.None? ==>
            && r.value.Some?
            && r.value.value.keyId == s.kmsKeyId
            && r.value.value.annotations == map[]
            && s.backend(r.calls[0]) == Success(r.value.value.ciphertext))
      && (r.err.Some? ==> r.value == None && s.backend(r.calls[0]) == Failure(r.err.value))
  {
  }

  /** Decrypt reaches the backend with the caller's key id and ciphertext,
      and returns the backend's plaintext or its error. */
  lemma DecryptUsesCallerKey(addr: string, s: K.InfisicalKmsService, req: P.DecryptRequest)
    ensures var r := P.Decrypt(Wired(addr, s), req);
      && r.calls == [K.DecryptData(req.keyId, req.ciphertext)]
      && (r.err.None? ==> s.backend(r.calls[0]) == Success(r.value.value.plaintext))
      && (r.err.Some? ==> r.value == None && s.backend(r.calls[0]) == Failure(r.err.value))
  {
  }

  /** Status reports healthy, with version "v2" and the configured key id,
      exactly when the backend encrypts the probe payload under that key. */
  lemma StatusIsProbe(addr: string, s: K.InfisicalKmsService)
    ensures var r := P.Status(Wired(addr, s));
      && r.calls == [K.EncryptData(s.kmsKeyId, K.ProbePayload)]
      && (r.err.None? <==> s.backend(K.EncryptData(s.kmsKeyId, K.ProbePayload)).Success?)
      && (r.err.None? ==> r.value == Some(P.StatusResponse("v2", "ok", s.kmsKeyId)))
  {
  }

  /** Payloads are not altered: with a backend that decrypts its own
      ciphertexts, decrypting the ciphertext and key id of a successful
      Encrypt yields the original plaintext, whatever the uids and the
      annotations passed back. */
  lemma RoundTrip(addr: string, s: K.InfisicalKmsService, uid1: string, uid2: string,
                  plaintext: K.Bytes, annotations: K.Annotations)
    requires DecryptsOwnCiphertexts(s.backend)
    ensures var g := Wired(addr, s);
      var e := P.Encrypt(g, P.EncryptRequest(uid1, plaintext));
      e.err.None? ==>
        var d := P.Decrypt(g, P.DecryptRequest(uid2, e.value.value.ciphertext, e.value.value.keyId, annotations));
        d.err.None? && d.value == Some(P.DecryptResponse(plaintext))
  {
  }
}
