# Infisical KMS plugin for Kubernetes: credential resolver and KMS service, in Dafny

This project models the core of a Kubernetes KMS v2 plugin that keeps its keys
in Infisical's KMS. It covers three parts.

- **The credential resolver** (`auth.dfy`, module `Auth`). There are five
  authentication handlers: universal auth, AWS IAM, Azure, GCP ID token and
  GCP IAM. Each handler first checks whether the configured credentials apply
  to it. If they do not, it returns `ErrAuthNotApplicable`. If they do, it
  makes exactly one backend login call and returns its own strategy tag or
  an error that is not `ErrAuthNotApplicable`. `login()` walks the handlers in the iteration order of a Go
  map. It stops at the first success, or at the first error that is not
  "not applicable". If no handler applies, it fails with "no valid
  authentication provided".
- **The KMS adapter** (`infisical_kms.dfy`, module `InfisicalKms`). This is
  the service behind the gRPC layer. Encrypt always encrypts under the
  configured key id. Decrypt uses the caller's key id. Status is a probe
  encryption of a fixed payload.
- **The gRPC service** (`plugin.dfy`, module `Plugin`). Status, Encrypt and
  Decrypt copy fields between the Kubernetes KMS API messages and the service
  they delegate to. Shutdown and Close guard against a server that was never
  created.

`end_to_end.dfy` (module `EndToEnd`) wires the gRPC service to the adapter
the way the plugin's entry point does. It proves what a Kubernetes caller
sees: the key id in responses, the backend calls made, the status probe, and
that a payload survives an encrypt/decrypt round trip unaltered.
`wrappers.dfy` holds `Option` and `Result`.

Modelling choices:

- **Iteration order is a parameter.** Go does not specify map iteration
  order, so `Login` takes the order as an argument. The argument may be any
  permutation of the five wired strategies (`IsIterationOrder`), and every
  property about `login()` is proved for all of them. The model has no fixed
  precedence because the code has none. A fixed order (universal, AWS IAM,
  Azure, GCP ID token, GCP IAM) is sometimes assumed for this resolver, but
  the model follows the code. `OutcomeDependsOnOrder` shows two orders
  that resolve the same credentials to different strategies.
  `OrderIrrelevantWhenOneApplies` shows the order makes no difference when at
  most one strategy applies.
- **Universal auth applies when either field is set.** It is sometimes
  assumed that universal auth needs both client id and client secret. The
  code (auth.go:49) skips it only when both are empty. The model follows the code.
- **The backend is an oracle.** Infisical's login endpoint is the function
  `LoginBackend` from a `LoginRequest` to accepted or rejected. Its KMS
  endpoints are `Backend`, a function from a `BackendCall` to the bytes
  returned or an error. Each `LoginRequest` records which SDK call was made
  and with which credential fields.
- **Results carry a call trace.** Every result records the backend calls
  made to produce it (`calls`). That is how "at most one login call", "no
  later strategy is attempted" and "Encrypt sends the configured key" are
  stated.
- **Go shapes.** A Go `(value, error)` pair is `Return(value, err, calls)`.
  A nil pointer is `None`. A nil annotation map is the empty map. Go's
  `string(bytes)` and `[]byte(string)` copy bytes unchanged, so payloads are
  byte sequences on both sides of the backend. `errors.Is` is `ErrorsIs`: it
  follows the `%w` wrapping of `login()`, and the `%s` formatting in the
  handlers does not wrap. A successful `login()` returns nil and logs the tag
  it used; the model returns `Success(tag)`.

## Model

| member | source | states |
|---|---|---|
| `Auth.TagNamesDistinct` | auth.go:13-31 | the eight strategy tags have pairwise distinct string values (the Kubernetes tag's value is `KUBERNETES_AUTH_MACHINE_IDENTITY`) |
| `Auth.HandleUniversalAuth` | auth.go:48-59 | not applicable exactly when client id and client secret are both empty, with no call then; otherwise exactly one `UniversalAuthLogin(clientId, clientSecret)` call, whose acceptance yields the universal tag and whose rejection yields an error that is not "not applicable" |
| `Auth.HandleAwsIamAuth` | auth.go:61-72 | not applicable exactly when the identity id is empty, with no call then; otherwise exactly one `AwsIamAuthLogin(identityId)` call, answered with the AWS IAM tag or a real error |
| `Auth.HandleAzureAuth` | auth.go:74-85 | not applicable exactly when the identity id is empty, with no call then; otherwise exactly one `AzureAuthLogin(identityId, resource)` call (an empty resource passed on as is), answered with the Azure tag or a real error |
| `Auth.HandleGcpIdTokenAuth` | auth.go:87-98 | not applicable exactly when the identity id is empty, with no call then; otherwise exactly one `GcpIdTokenAuthLogin(identityId)` call, answered with the GCP ID token tag or a real error |
| `Auth.HandleGcpIamAuth` | auth.go:100-111 | not applicable only when identity id and key file path are both empty, with no call then; otherwise exactly one `GcpIamAuthLogin(identityId, keyfilePath)` call, answered with the GCP IAM tag or a real error |
| `Auth.Handler` | auth.go:114-120 | the strategy map binds each of the five wired tags to a handler that is "not applicable" exactly when `Applicable` fails, makes no call then, and otherwise makes exactly the tag's own login call and answers with that tag on acceptance |
| `Auth.LoginFrom` | auth.go:122-134 | the loop makes at most one login call, reports only a strategy it visited, and reports "no valid authentication provided" only after no call |
| `Auth.Login` | auth.go:113-135 | for every iteration order, at most one backend login call, and a reported tag is always one of the five wired strategies, never SERVICE_TOKEN, SERVICE_ACCOUNT or the Kubernetes tag |
| `Auth.FirstApplicable` | auth.go:122-132 | the position of the first strategy in the order whose handler applies: every earlier one does not apply, and None means none applies |
| `Auth.LoginFromIsFirstMatch` | auth.go:122-134 | the loop's result is settled by the first applicable strategy: exactly its one login call, its tag on acceptance, its handler error wrapped with its tag on rejection; with none applicable, "no valid authentication provided" after zero calls |
| `Auth.LoginSucceedsIff` | auth.go:122-127 | for every iteration order, login() returns nil if and only if the first applicable strategy in that order logs in, and then it reports that strategy |
| `Auth.LoginStopsAtFirstFailure` | auth.go:129-131 | if the first applicable strategy's login is rejected, login() fails with an error naming that strategy and wrapping a cause other than "not applicable", and its only call is that strategy's, so no later strategy is attempted |
| `Auth.NoStrategyApplicableIff` | auth.go:48-111 | no handler applies exactly when client id, client secret, identity id and key file path are all empty; the Azure resource alone enables none |
| `Auth.LoginNoneApplicable` | auth.go:122-134 | for every iteration order, login() reports "no valid authentication provided" after zero login calls exactly when no strategy applies |
| `Auth.OrderIrrelevantWhenOneApplies` | auth.go:114-127 | when at most one wired strategy applies, every iteration order gives the same result and the same calls |
| `Auth.IdentityIdOnly` | auth.go:61-111 | with only an identity id set, universal auth does not apply and the four identity-based strategies all do, and login() attempts exactly the first of them in the iteration order, not the universal one |
| `Auth.OutcomeDependsOnOrder` | auth.go:114-127 | with client credentials and an identity id both set and a backend that accepts all logins, one iteration order yields the universal tag and another the AWS IAM tag |
| `InfisicalKms.NewInfisicalKmsService` | infisical-kms.go:56-61 | the service keeps the backend client and the key id it is given |
| `InfisicalKms.Decrypt` | infisical-kms.go:14-25 | sends the request's key id and ciphertext, not the configured key, and returns the backend's plaintext, or an empty byte slice with the backend's error |
| `InfisicalKms.Encrypt` | infisical-kms.go:27-41 | sends the configured key id whatever the caller passes; on success returns the backend's ciphertext, the configured key id and no annotations; on failure an empty response and the backend's error |
| `InfisicalKms.Status` | infisical-kms.go:43-54 | makes exactly the probe call, an encryption of "test-encrypt-payload" under the configured key; fails exactly when that fails, with its error and a nil response; otherwise reports version "v2", health "ok" and the configured key id |
| `InfisicalKms.UidIgnored` | infisical-kms.go:14-54 | the uid argument influences neither the result nor the backend calls of Encrypt and Decrypt |
| `InfisicalKms.DecryptIgnoresAnnotations` | infisical-kms.go:14-18 | the annotations of a decrypt request do not reach the backend or the result |
| `Plugin.NewGrpcService` | plugin.go:44-54 | a new gRPC service has no server yet and keeps its address and the service it delegates to |
| `Plugin.Status` | plugin.go:119-130 | on a service error, a nil response and that error unchanged; otherwise version, health and key id copied field for field |
| `Plugin.ForwardedDecrypt` | plugin.go:134-138 | the request handed to the service carries the caller's ciphertext, key id and annotations unchanged |
| `Plugin.Decrypt` | plugin.go:133-146 | calls the service with the caller's uid and the forwarded request, and returns the service's plaintext unchanged, or a nil response with the service's error |
| `Plugin.Encrypt` | plugin.go:149-160 | calls the service with the caller's uid and plaintext unchanged, and copies ciphertext, key id and annotations from its response, or returns a nil response with the service's error; requires that the service does not answer a nil response without an error |
| `Plugin.Shutdown` | plugin.go:104-108 | stops the server gracefully if there is one, and does nothing otherwise |
| `Plugin.Close` | plugin.go:112-116 | stops the server immediately if there is one, and does nothing otherwise |
| `Plugin.StopBeforeServe` | plugin.go:104-116 | on a service whose server has not been created, Shutdown and Close both do nothing |
| `EndToEnd.AdapterService` | main.go:81 | the adapter, used as the gRPC layer's service, never answers Status or Encrypt with a nil response and no error |
| `EndToEnd.EncryptUsesConfiguredKey` | infisical-kms.go:27-41 | through both layers, Encrypt makes the one call `EncryptData(kmsKeyId, plaintext)`; it succeeds exactly when the backend does, and then carries the backend's ciphertext, the configured key id and no annotations (with plugin.go:155-159) |
| `EndToEnd.DecryptUsesCallerKey` | infisical-kms.go:14-25 | through both layers, Decrypt makes the one call `DecryptData(keyId, ciphertext)` with the caller's values, and returns the backend's plaintext or its error (with plugin.go:134-145) |
| `EndToEnd.StatusIsProbe` | infisical-kms.go:43-54 | through both layers, Status is healthy, with version "v2", health "ok" and the configured key id, exactly when the backend encrypts the probe payload under the configured key (with plugin.go:119-130) |
| `EndToEnd.RoundTrip` | plugin.go:133-160 | for a backend that decrypts its own ciphertexts, decrypting the ciphertext and key id of a successful Encrypt yields the original plaintext, whatever uids and annotations are passed |

## Left out

- main.go is not modelled. That covers flag parsing, the global flag variables and the missing-key check. It also covers `run`, which races OS signals against the two servers' error channels; that is concurrency and signal handling. One behaviour of `run` is worth noting: an event on the health channel makes it return nil (main.go:44-46), so a failed health server ends the process without a fatal error.
- plugin.go's ListenAndServe and Start are not modelled. They remove the socket file, listen and build the gRPC server, and run a goroutine that makes a non-blocking send and then closes the channel. This is I/O and concurrency. The assignment of `server` in ListenAndServe (plugin.go:76) belongs to them, so here a `GrpcService`'s server is either absent or given.
- healthz.go is not modelled. Its HTTP server and per-request gRPC client are network I/O.
- Infisical SDK internals are oracles. That covers the login calls, KMS encryption and decryption, and how strings travel over HTTP.
- Logging (auth.go:125, plugin.go:80), contexts, and the gRPC connection and health-check timeouts are not modelled.
- Error messages are kept as structure, not rendered text. The model keeps the login method name and the SDK error text of a handler failure, and the strategy a `login()` failure names. It does not build the formatted strings.
- Plugin.Status: requires that the service never answers a nil response without an error. The Go code dereferences the response in that case and would panic. The adapter is proved to meet this requirement (`EndToEnd.AdapterService`).
- Plugin.Encrypt: requires that the service never answers a nil response without an error. The Go code reads the response's fields in that case and would panic. The adapter always returns a response, empty on failure, and is proved to meet this requirement (`EndToEnd.AdapterService`).
- The unused StatusRequest argument of the gRPC Status call is not modelled.
- `DecryptRequest`, `EncryptResponse`, `StatusResponse` and the `Service` interface are declared in a file that is not part of this model. They are modelled from how the core files use them.
