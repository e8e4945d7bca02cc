/** The gRPC service of the Kubernetes KMS v2 API: Status, Encrypt and
    Decrypt translate between the API's messages and the Service they
    delegate to, field for field; Shutdown and Close stop the gRPC server if
    one has been created. */
module Plugin {
  import opened Wrappers
  import K = InfisicalKms

  // Messages of the Kubernetes KMS v2 API

  datatype StatusResponse = StatusResponse(version: string, healthz: string, keyId: string)

  datatype DecryptRequest = DecryptRequest(uid: string, ciphertext: K.Bytes, keyId: string, annotations: K.Annotations)

  datatype DecryptResponse = DecryptResponse(plaintext: K.Bytes)

  datatype EncryptRequest = EncryptRequest(uid: string, plaintext: K.Bytes)

  datatype EncryptResponse = EncryptResponse(ciphertext: K.Bytes, keyId: string, annotations: K.Annotations)

  /** The Service interface the gRPC layer delegates to. Status and Encrypt
      return pointers, so their values are None for nil. */
  datatype Service = Service(
    status: () -> K.Return<Option<K.StatusResponse>>,
    encrypt: (string, K.Bytes) -> K.Return<Option<K.EncryptResponse>>,
    decrypt: (string, K.DecryptRequest) -> K.Return<K.Bytes>)

  /** A Service whose Status never answers a nil response without an error;
      the gRPC layer reads the fields of the response whenever the error is
      nil. */
  predicate StatusRespondsOrFails(service: Service) {
    service.status().err.None? ==> service.status().value.Some?
  }

  /** The Service's Encrypt never answers a nil response without an error;
      the gRPC layer reads the fields of the response whenever the error is
      nil. */
  predicate EncryptRespondsOrFails(service: Service, uid: string, plaintext: K.Bytes) {
    service.encrypt(uid, plaintext).err.None? ==> service.encrypt(uid, plaintext).value.Some?
  }

  /** A running gRPC server. */
  datatype ServerHandle = ServerHandle(id: nat)

  /** The gRPC service. Its server is created by ListenAndServe, which is not
      part of this model, so here it is either absent or given. */
  datatype GrpcService = GrpcService(addr: string, server: Option<ServerHandle>, kmsService: Service)

  /** A new service has no server yet. */
  function NewGrpcService(addr: string, kmsService: Service): (g: GrpcService)
    ensures g.server == None && g.addr == addr && g.kmsService == kmsService
  {
    GrpcService(addr, None, kmsService)
  }

  /** Status fails with the Service's error unchanged and a nil response, or
      copies version, health and key id field for field. */
  function Status(g: GrpcService): (r: K.Return<Option<StatusResponse>>)
    requires StatusRespondsOrFails(g.kmsService)
    ensures r.err == g.kmsService.status().err && r.calls == g.kmsService.status().calls
    ensures r.err.Some? ==> r.value == None
    ensures r.err.None? ==>
      && r.value.Some?
      && r.value.value.version == g.kmsService.status().value.value.version
      && r.value.value.healthz == g.kmsService.status().value.value.healthz
      && r.value.value.keyId == g.kmsService.status().value.value.keyId
  {
    var res := g.kmsService.status();
    if res.err.Some? then K.Return(None, res.err, res.calls)
    else
      var s := res.value.value;
      K.Return(Some(StatusResponse(s.version, s.healthz, s.keyId)), None, res.calls)
  }

  /** The Service decrypt request that Decrypt forwards. */
  function ForwardedDecrypt(req: DecryptRequest): (d: K.DecryptRequest)
    ensures d.ciphertext == req.ciphertext && d.keyId == req.keyId && d.annotations == req.annotations
  {
    K.DecryptRequest(req.ciphertext, req.keyId, req.annotations)
  }

  /** Decrypt forwards uid, ciphertext, key id and annotations unchanged, and
      returns the Service's plaintext unchanged, or a nil response with the
      Service's error. */
  function Decrypt(g: GrpcService, req: DecryptRequest): (r: K.Return<Option<DecryptResponse>>)
    ensures var res := g.kmsService.decrypt(req.uid, ForwardedDecrypt(req));
      && r.err == res.err
      && r.calls == res.calls
      && (r.err.Some? ==> r.value == None)
      && (r.err.None? ==> r.value == Some(DecryptResponse(res.value)))
  {
    var res := g.kmsService.decrypt(req.uid, ForwardedDecrypt(req));
    if res.err.Some? then K.Return(None, res.err, res.calls)
    else K.Return(Some(DecryptResponse(res.value)), None, res.calls)
  }

  /** Encrypt forwards uid and plaintext unchanged, and copies ciphertext, key
      id and annotations from the Service's response, or returns a nil
      response with the Service's error. */
  function Encrypt(g: GrpcService, req: EncryptRequest): (r: K.Return<Option<EncryptResponse>>)
    requires EncryptRespondsOrFails(g.kmsService, req.uid, req.plaintext)
    ensures var res := g.kmsService.encrypt(req.uid, req.plaintext);
      && r.err == res.err
      && r.calls == res.calls
      && (r.err.Some? ==> r.value == None)
      && (r.err.None? ==> r.value == Some(EncryptResponse(res.value.value.ciphertext, res.value.value.keyId, res.value.value.annotations)))
  {
    var res := g.kmsService.encrypt(req.uid, req.plaintext);
    if res.err.Some? then K.Return(None, res.err, res.calls)
    else
      var e := res.value.value;
      K.Return(Some(EncryptResponse(e.ciphertext, e.keyId, e.annotations)), None, res.calls)
  }

  /** What stopping the service does to its gRPC server. */
  datatype StopAction = NoAction | GracefulStop(server: ServerHandle) | ImmediateStop(server: ServerHandle)

  /** Shutdown stops the server gracefully, if there is one. */
  function Shutdown(g: GrpcService): (a: StopAction)
    ensures a == NoAction <==> g.server == None
    ensures g.server.Some? ==> a == GracefulStop(g.server.value)
  {
    match g.server
    case None => NoAction
    case Some(server) => GracefulStop(server)
  }

  /** Close stops the server at once, if there is one. */
  function Close(g: GrpcService): (a: StopAction)
    ensures a == NoAction <==> g.server == None
    ensures g.server.Some? ==> a == ImmediateStop(g.server.value)
  {
    match g.server
    case None => NoAction
    case Some(server) => ImmediateStop(server)
  }

  /** Before a server has been created, Shutdown and Close do nothing. */
  lemma StopBeforeServe(addr: string, kmsService: Service)
    ensures Shutdown(NewGrpcService(addr, kmsService)) == NoAction
    ensures Close(NewGrpcService(addr, kmsService)) == NoAction
  {
  }
}
