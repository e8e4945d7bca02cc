/** The KMS adapter: the Service that the gRPC layer delegates to, built on
    the backend's two KMS endpoints. Every operation is straight-line
    delegation; the adapter only chooses which key id goes to the backend
    and repackages the answer.

    Go converts between []byte and string by copying the bytes unchanged, so
    payloads are byte sequences on both sides of the backend call. */
module InfisicalKms {
  import opened Wrappers

  newtype byte = x: int | 0 <= x < 256

  type Bytes = seq<byte>

  /** Annotations of the Kubernetes KMS messages; a nil map is the empty map. */
  type Annotations = map<string, Bytes>

  /** An error, known by its text. */
  datatype Error = Error(message: string)

  /** A call to the backend's KMS endpoints, with the options it is given. */
  datatype BackendCall =
    | EncryptData(keyId: string, plaintext: Bytes)
    | DecryptData(keyId: string, ciphertext: Bytes)

  /** The backend, an uninterpreted oracle: the ciphertext, the plaintext or
      an error. */
  type Backend = BackendCall -> Result<Bytes, Error>

  /** A Go (value, error) return pair, with the backend calls made to produce it. */
  datatype Return<T> = Return(value: T, err: Option<Error>, calls: seq<BackendCall>)

  datatype DecryptRequest = DecryptRequest(ciphertext: Bytes, keyId: string, annotations: Annotations)

  datatype EncryptResponse = EncryptResponse(ciphertext: Bytes, keyId: string, annotations: Annotations)

  datatype StatusResponse = StatusResponse(version: string, healthz: string, keyId: string)

  /** The adapter: the backend client and the configured key. */
  datatype InfisicalKmsService = InfisicalKmsService(backend: Backend, kmsKeyId: string)

  function NewInfisicalKmsService(backend: Backend, kmsKeyId: string): (s: InfisicalKmsService)
    ensures s.kmsKeyId == kmsKeyId && s.backend == backend
  {
    InfisicalKmsService(backend, kmsKeyId)
  }

  /** The fixed request of the status probe. */
  const ProbeUid: string := "test-status-uid"
  /** "test-encrypt-payload" in ASCII. */
  const ProbePayload: Bytes :=
    [0x74, 0x65, 0x73, 0x74, 0x2d, 0x65, 0x6e, 0x63, 0x72, 0x79,
     0x70, 0x74, 0x2d, 0x70, 0x61, 0x79, 0x6c, 0x6f, 0x61, 0x64]
  const Version: string := "v2"
  const Healthz: string := "ok"

  /** Decrypt asks the backend to decrypt under the caller's key id, not the
      configured one, and returns its answer: the plaintext, or an empty
      byte slice with the backend's error. */
  function Decrypt(s: InfisicalKmsService, uid: string, req: DecryptRequest): (r: Return<Bytes>)
    ensures r.calls == [DecryptData(req.keyId, req.ciphertext)]
    ensures r.err.None? ==> s.backend(r.calls[0]) == Success(r.value)
    ensures r.err.Some? ==> r.value == [] && s.backend(r.calls[0]) == Failure(r.err.value)
  {
    var call := DecryptData(req.keyId, req.ciphertext);
    match s.backend(call)
    case Failure(e) => Return([], Some(e), [call])
    case Success(plaintext) => Return(plaintext, None, [call])
  }

  /** Encrypt always encrypts under the configured key id. On success it
      returns the backend's ciphertext, that key id and no annotations; on
      failure an empty response with the backend's error. */
  function Encrypt(s: InfisicalKmsService, uid: string, data: Bytes): (r: Return<EncryptResponse>)
    ensures r.calls == [EncryptData(s.kmsKeyId, data)]
    ensures r.err.None? ==>
      && s.backend(r.calls[0]) == Success(r.value.ciphertext)
      && r.value.keyId == s.kmsKeyId
      && r.value.annotations == map[]
    ensures r.err.Some? ==>
      r.value == EncryptResponse([], "", map[]) && s.backend(r.calls[0]) == Failure(r.err.value)
  {
    var call := EncryptData(s.kmsKeyId, data);
    match s.backend(call)
    case Failure(e) => Return(EncryptResponse([], "", map[]), Some(e), [call])
    case Success(ciphertext) => Return(EncryptResponse(ciphertext, s.kmsKeyId, map[]), None, [call])
  }

  /** Status is a probe encryption of a fixed payload under the configured
      key: it fails exactly when that encryption fails, and otherwise reports
      version "v2", health "ok" and the configured key id. */
  function Status(s: InfisicalKmsService): (r: Return<Option<StatusResponse>>)
    ensures r.calls == [EncryptData(s.kmsKeyId, ProbePayload)]
    ensures r.err.None? <==> s.backend(r.calls[0]).Success?
    ensures r.err.None? ==> r.value == Some(StatusResponse("v2", "ok", s.kmsKeyId))
    ensures r.err.Some? ==> r.value == None && s.backend(r.calls[0]) == Failure(r.err.value)
  {
    var probe := Encrypt(s, ProbeUid, ProbePayload);
    if probe.err.Some? then Return(None, probe.err, probe.calls)
    else Return(Some(StatusResponse(Version, Healthz, s.kmsKeyId)), None, probe.calls)
  }

  /** The uid argument influences no result, nor any backend call. */
  lemma UidIgnored(s: InfisicalKmsService, uid1: string, uid2: string, data: Bytes, req: DecryptRequest)
    ensures Encrypt(s, uid1, data) == Encrypt(s, uid2, data)
    ensures Decrypt(s, uid1, req) == Decrypt(s, uid2, req)
  {
  }

  /** Annotations of a decrypt request are not consulted. */
  lemma DecryptIgnoresAnnotations(s: InfisicalKmsService, uid: string, req: DecryptRequest, annotations: Annotations)
    ensures Decrypt(s, uid, req) == Decrypt(s, uid, req.(annotations := annotations))
  {
  }
}
