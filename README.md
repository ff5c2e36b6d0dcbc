# Slack callback handler and forwarder configuration checks, in Dafny

This project models two pieces of decision logic from the teleport-plugins
repository and proves their properties.

- **The Slack callback server of the access bot** (`SlackCallback`,
  `DecimalFormat`). `CallbackServer` holds the signing secret, the callback and
  a 64-bit request counter. `ProcessCallback` handles one interaction request:
  1. It increments the counter and builds the request ID
     `"<X-Slack-Request-Timestamp>-<counter>"`.
  2. It sets up the signature verifier and reads the body through it.
  3. It checks the signature.
  4. It decodes the JSON payload.
  5. It calls the callback under a 2500 ms deadline.

  The first failing step decides the one status written: 500, 401, 400, or,
  for the callback, 200 / 503 (canceled or deadline) / 500 (any other error).
  The Slack verifier, the JSON decoder and the callback are foreign code. They
  appear only through their outcomes: fields of `Request`, and the function
  value `onCallback`.
- **The configuration checks of the Fluentd forwarder** (`ForwarderConfig`).
  `Config.Validate` runs four checks in order: Fluentd, Teleport, storage
  directory, start time. It returns the first failure. It assigns `startTime`
  only after the first three checks pass. The TLS and identity-file rules of
  `ValidateFluentd` and `ValidateTeleport` are stated as if-and-only-if
  contracts. The file system is a `FileSystem` object with three sets of paths:
  paths that exist, paths whose stat fails for a reason other than "does not
  exist", and paths that `MkdirAll` cannot create. `ValidateStorage` adds the
  storage directory to the existing paths when it creates it.

The model follows the code in two places where a reader might expect
otherwise:
- A request without valid signing headers fails at verifier set-up and gets
  500, not 401. Only a signature mismatch gets 401.
- When the start time does not parse, `startTime` is still assigned. Go's
  `time.Parse` returns the zero time alongside the error, so `startTime`
  becomes the zero time.

## Model

| member | source | states |
|---|---|---|
| DecimalFormat.Decimal | access/slackbot/callback_server.go:65 | `%v` of the counter is a non-empty string of decimal digits without a leading zero |
| DecimalFormat.ParseDecimalOfDecimal | access/slackbot/callback_server.go:65 | reading the decimal rendering back gives the counter value |
| DecimalFormat.DecimalInjective | access/slackbot/callback_server.go:65 | distinct counter values render as distinct strings |
| SlackCallback.DeadlineMargins | access/slackbot/callback_server.go:56-62 | the 2500 ms dispatch deadline is below Slack's 3000 ms budget and below the 5 s shutdown grace period |
| SlackCallback.HeaderGet | access/slackbot/callback_server.go:65 | reading the timestamp header gives its first value, or "" when the header is absent or has no values |
| SlackCallback.RequestID | access/slackbot/callback_server.go:65 | the ID is the timestamp header, then a dash, then the counter in decimal |
| SlackCallback.SplitAtLastDash | access/slackbot/callback_server.go:65 | splitting at the last dash gives back the string, and the tail has no dash; there is no split exactly when the string has no dash |
| SlackCallback.ParseRequestIDOfRequestID | access/slackbot/callback_server.go:65 | a request ID can be parsed back into its timestamp and its counter value |
| SlackCallback.RequestIDInjective | access/slackbot/callback_server.go:65 | two request IDs are equal exactly when their timestamps and counter values are |
| SlackCallback.IssuedDistinct | access/slackbot/callback_server.go:65 | until the 64-bit counter wraps, no two requests get the same counter value |
| SlackCallback.RequestIDsDistinct | access/slackbot/callback_server.go:65 | two requests on one server get distinct IDs, even when their timestamps are equal |
| SlackCallback.ErrorStatus | access/slackbot/callback_server.go:96-103 | a canceled or deadline error gives 503; any other error gives 500 |
| SlackCallback.Pipeline | access/slackbot/callback_server.go:61-107 | set-up failure gives 500, signature mismatch 401, decode failure 400; steps run in order and stop at the first failure; decoding follows a passed signature check; the callback runs exactly when all earlier steps pass, gets this request's ID and the 2500 ms deadline, and its result gives 200, 503 or 500 |
| SlackCallback.ResponseWriter.WriteHeader | access/slackbot/callback_server.go:105 | writing the status appends exactly that one status to what was written |
| SlackCallback.ResponseWriter.Error | access/slackbot/callback_server.go:71-103 | `http.Error` appends exactly the given status to what was written |
| SlackCallback.CallbackServer.constructor | access/slackbot/callback_server.go:35-47 | a new server keeps the secret and the callback, and starts with counter 0 and no IDs issued |
| SlackCallback.CallbackServer.ProcessCallback | access/slackbot/callback_server.go:61-107 | the counter grows by one (mod 2^64) on every path; the ID is the timestamp header and the new counter; exactly one status is written; that status and the steps run are the ones `Pipeline` gives |
| ForwarderConfig.FirstFailure | fluentd-forward/config.go:163-182 | the result is nil exactly when every check passes, and otherwise is the error of the first failing check |
| ForwarderConfig.FirstFailureAfterPassing | fluentd-forward/config.go:163-182 | checks that pass can be skipped without changing the first failure |
| ForwarderConfig.FileSystem.Stat | fluentd-forward/config.go:285-286 | stat finds exactly the existing paths, fails with another error exactly on the paths it cannot examine, and reports does-not-exist for every other path |
| ForwarderConfig.FileSystem.FileExists | fluentd-forward/config.go:296-304 | a path is missing only when stat reports that it does not exist; any other stat error counts as existing |
| ForwarderConfig.FileSystem.MkdirAll | fluentd-forward/config.go:287-290 | creating a directory either fails and leaves the existing paths alone, or adds the path to them |
| ForwarderConfig.Config.constructor | fluentd-forward/config.go:31-85 | the configuration holds every field value given to it, and startTime is the zero time |
| ForwarderConfig.Config.ValidateFluentd | fluentd-forward/config.go:194-226 | an empty URL always fails; success means a URL, a CA that is empty or exists, and a certificate and a key that are given and exist; the checks run in the order URL, CA, certificate, key, and the first that fails gives its own error; every error is a Fluentd bad-parameter error |
| ForwarderConfig.Config.ValidateTeleport | fluentd-forward/config.go:228-278 | if any TLS file is given: success means an address and all three files given and existing, the address, CA, certificate and key are checked in that order with the first failure's own error reported, and every error is a TLS error (the identity file plays no part); otherwise success means an identity file that is given and exists, and a missing or absent identity file gives its own error |
| ForwarderConfig.Config.StorageError | fluentd-forward/config.go:280-294 | an empty storage dir fails; otherwise the check passes unless the directory is missing and cannot be created |
| ForwarderConfig.Config.ValidateStorage | fluentd-forward/config.go:280-294 | returns the error `StorageError` gives; a missing directory is created, and an existing one leaves the paths unchanged; after success the directory exists |
| ForwarderConfig.Config.StartTimeError | fluentd-forward/config.go:179-182 | the start-time step fails exactly when parsing fails, with an error that names the raw value |
| ForwarderConfig.Config.Validate | fluentd-forward/config.go:162-192 | returns the first failure of fluentd, teleport, storage and start time, in that order; startTime is assigned only when the first three pass, to the parsed time or the zero time; the storage directory is created only when fluentd and teleport pass |

## Left out

- `Run`, `Shutdown`, `EnsureCert` and `ListenAndServe` are left out: they are HTTP and TLS transport plumbing. Only the 5 s shutdown grace period is modelled, as a constant.
- The failure of `utils.NewHTTP` in `NewCallbackServer` and the route registration are left out: they are transport set-up. The constructor models the state the server starts in.
- The HMAC computation of `slack.NewSecretsVerifier` and `Ensure`, the tee reader and `r.FormValue` are left out: they are library code. Their outcomes are fields of `Request`, given for the server's secret.
- `json.Unmarshal` and the fields of `slack.InteractionCallback` are left out: they are library code. The decoded event is an opaque value.
- `utils.IsCanceled` and `utils.IsDeadline` are not part of this model. A callback error is either canceled, deadline exceeded, or some other error, so wrapping of errors is not modelled.
- The timing race between the callback and its deadline is left out. So is the atomicity of `atomic.AddUint64`. The deadline is the constant 2500 ms in the callback's context, and the counter is a sequential increment modulo 2^64.
- `Header.Get` key canonicalisation is not modelled: the header map is keyed by canonical names.
- The empty message body written by `http.Error` is left out: only status codes are modelled.
- Logging (`log.WithField`, `log.WithError`, `trace.DebugReport`) is left out: it has no effect on results.
- `initConfig`, `printUsage` and `newConfig` are left out: they are flag and environment plumbing around `viper`.
- The RFC 3339 parser (`time.Parse`) is left out: it is library code. `Validate` takes the parse as a function.
- `os.MkdirAll` creating parent directories and the 0755 permissions are not modelled. The created path alone is added to the existing paths.
- `fluentd-forward/gen_certs_cmd.go` is not part of this model: it is key generation, certificate creation and file output.
