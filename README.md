# StepRunSourceServer, modelled in Dafny

This project models the provisioning step of a Packer builder for Huawei Cloud ECS:
`StepRunSourceServer`. The step launches the source server that an image is later
taken from, and tears it down afterwards. `Run` does the following, in order:

1. It builds the compute client.
2. It merges the configured ports and networks into one attachment list.
3. It picks the user data: the inline string, or the content of the user-data file.
4. It builds the creation options: base options, optionally wrapped by a
   boot-from-volume extension, optionally wrapped by a key-pair extension.
5. It moves the preferred availability zone to the front of the candidate list.
6. It tries creation zone by zone until one attempt succeeds. Each attempt is a create
   call followed by a wait for `ACTIVE`.
7. It publishes the server.

`Cleanup` deletes the server, by force or gracefully, and waits for `DELETED`. It never
halts the pipeline.

Modules:

- `Wrappers` (wrappers.dfy): `Option` and `Result`.
- `ServerOptions` (server_options.dfy): the request data.
  - `CreateOpts`, `Network`, `BlockDevice`.
  - The extension chain `Builder`. Its `BaseOpts` stands for the pointer to the one
    mutable `serverOpts`. `Flatten(chain, opts)` is the request the chain produces while
    `serverOpts` holds `opts`, so a zone written into `serverOpts` reaches every layer.
  - The network merge loop `MergeNetworks` over a preallocated array.
- `Zones` (zones.dfy): the in-place promotion of the preferred zone over the shared
  zone array (`PromoteZone`), and its specification `Promoted`.
- `Compute` (compute.dfy): the compute service boundary.
  - The cloud is a `Cloud` object that records every call it receives.
  - Its replies come from a `Provider` oracle: one function per operation (create, wait,
    delete) of the calls made so far and the arguments.
- `RunSourceServer` (run_source_server.dfy): `createServer`, the zone loop and its
  specification `Retry`, the typed state bag `StateBag`, and the step class with `Run`
  and `Cleanup`.

## Model

| member | source | states |
|---|---|---|
| `ServerOptions.MergeNetworks` | huaweicloud/step_run_source_server.go:46-53 | the list has `len(Ports)+len(Networks)` entries; entry i < len(Ports) has port `Ports[i]` and an empty UUID; each later entry has UUID `Networks[i-len(Ports)]` and an empty port; the list equals the reference definition `Merged` |
| `ServerOptions.Flatten` | huaweicloud/step_run_source_server.go:94-99 | every extension hands the base options through unchanged (the chain holds a pointer to the base, not a copy); a key-pair layer adds its key name, a boot-from-volume layer its block devices, the bare base adds neither |
| `ServerOptions.FlattenKeepsInnerLayers` | huaweicloud/step_run_source_server.go:94-108 | a key-pair layer keeps the block devices its inner layers added, and a boot-from-volume layer keeps their key name |
| `ServerOptions.AttemptRequest` | huaweicloud/step_run_source_server.go:122-125 | after an attempt writes zone z into the shared options, the request the chain produces carries z and otherwise the shared options as they are |
| `ServerOptions.AttemptRequests` | huaweicloud/step_run_source_server.go:121-125 | the k-th attempt's request carries the k-th zone |
| `ServerOptions.BootOptions` | huaweicloud/step_run_source_server.go:82-100 | with boot-from-volume the image reference is cleared and nothing else changes; without it the options are untouched |
| `ServerOptions.OptionChain` | huaweicloud/step_run_source_server.go:78-109 | a key-pair layer with the configured name is outermost exactly when the name is non-empty, and it wraps exactly the chain built without it; with an empty name the chain is exactly the one-device boot-from-volume layer over the base, or the base itself |
| `ServerOptions.FinalRequest` | huaweicloud/step_run_source_server.go:65-109 | the request sent in a zone: with boot-from-volume, an empty image reference and exactly one block device (boot index 0, source volume, destination volume, UUID `volume_id`); without it, the source image and no block device; key name present iff non-empty; every other field as assembled, zone as written |
| `Zones.Find` | huaweicloud/step_run_source_server.go:113-114 | the index of the first entry equal to the preferred zone, or the length when there is none |
| `Zones.PromotedSwapsHead` | huaweicloud/step_run_source_server.go:111-120 | with a non-empty preference listed at first index k: afterwards index 0 holds the preference, index k the old head, and every other entry is unchanged |
| `Zones.PromotedUnchanged` | huaweicloud/step_run_source_server.go:112 | an empty preference, or one not in the list, leaves the list unchanged |
| `Zones.PromotedIsPermutation` | huaweicloud/step_run_source_server.go:113-118 | the promoted list is a permutation of the input |
| `Zones.PromotionIsNotRotation` | huaweicloud/step_run_source_server.go:113-118 | the promotion is a transposition, not a stable rotation: `[a, b, c]` with preference `c` becomes `[c, b, a]` |
| `Zones.PromoteZone` | huaweicloud/step_run_source_server.go:111-120 | the loop over the shared slice, which visits every index and swaps on every match, leaves the slice equal to `Promoted` of its old contents (later duplicates of the preference swap with themselves) |
| `Compute.Cloud.Create` | huaweicloud/step_run_source_server.go:179 | a create call is logged and answered by the provider oracle from the calls before it |
| `Compute.Cloud.WaitForState` | huaweicloud/step_run_source_server.go:190-196 | a wait is logged with its pending and target lists and answered by the oracle |
| `Compute.Cloud.Delete` | huaweicloud/step_run_source_server.go:163 | a graceful delete of the server's ID is logged and answered by the oracle |
| `Compute.Cloud.ForceDelete` | huaweicloud/step_run_source_server.go:158 | a forced delete of the server's ID is logged and answered by the oracle |
| `RunSourceServer.CreateAttemptLog` | huaweicloud/step_run_source_server.go:178-196 | an attempt only appends to the call log, and starts with exactly one create call carrying the request |
| `RunSourceServer.CreateAttemptOutcome` | huaweicloud/step_run_source_server.go:178-204 | a failed create returns a launch error and makes no further call; otherwise one wait follows with pending `[BUILD]`, target `[ACTIVE]` and the step state attached; the attempt succeeds with the waited-for server iff the wait succeeds, and otherwise returns a wait error naming the server |
| `RunSourceServer.CreateServer` | huaweicloud/step_run_source_server.go:178-204 | the method's result and call log are those of `CreateAttempt`; a server whose wait failed is neither returned nor deleted |
| `RunSourceServer.Retry` | huaweicloud/step_run_source_server.go:121-129 | the loop makes at most one attempt per zone and never shortens the call log |
| `RunSourceServer.RetryFromExtends` | huaweicloud/step_run_source_server.go:121-129 | the loop only appends to the call log: the calls made before it are kept as they were |
| `RunSourceServer.RetryStopsAtFirstSuccess` | huaweicloud/step_run_source_server.go:121-129 | every attempt but the last failed; fewer attempts than zones means the last succeeded; no attempt is made iff the zone list is empty |
| `RunSourceServer.RetryAttemptsInOrder` | huaweicloud/step_run_source_server.go:121-125 | the loop issues one creation request per attempt, in list order, and attempt k's request carries zone `azs[k]` and the shared options otherwise |
| `RunSourceServer.RetryCallCount` | huaweicloud/step_run_source_server.go:121-129 | if the first M attempts fail and attempt M+1 succeeds, exactly M+1 creation calls are made and the loop ends with that server and no error |
| `RunSourceServer.RetryExhausted` | huaweicloud/step_run_source_server.go:121-133 | if the loop ends with an error, every zone was tried once, every attempt failed, and the error kept is the last attempt's |
| `RunSourceServer.RetryNoZones` | huaweicloud/step_run_source_server.go:121-138 | with no candidate zone nothing is called and the loop ends with neither an error nor a server |
| `RunSourceServer.RetryCreatedIsActive` | huaweicloud/step_run_source_server.go:190-203 | with a poller that succeeds only on a target status, the server the loop ends with is `ACTIVE` |
| `RunSourceServer.RetryRequestsAreFinal` | huaweicloud/step_run_source_server.go:82-125 | each creation request the loop sends over the assembled chain and boot options is the `FinalRequest` for its zone, so the boot-source and key-name guarantees hold of every request actually sent |
| `RunSourceServer.PreferredZoneTriedFirst` | huaweicloud/step_run_source_server.go:111-124 | when the preferred zone is listed, the first creation request goes to it |
| `RunSourceServer.PreferredZoneFailsScenario` | huaweicloud/step_run_source_server.go:111-129 | zones `[az1, az2]` with `az2` preferred and no capacity in `az2`: two creation calls, `az2` then `az1`, ending with the `ACTIVE` server and no error |
| `RunSourceServer.LaunchInZones` | huaweicloud/step_run_source_server.go:121-129 | the loop over the shared zone slice leaves the call log, `err` and `server` as `Retry` describes them |
| `RunSourceServer.StepRunSourceServer.Run` | huaweicloud/step_run_source_server.go:32-139 | a client-init failure or a user-data-file failure stores its error and halts before any zone change or call. Otherwise the zone slice is promoted and the log is that of `Retry` over the assembled options, chain and promoted zones. A final error is stored and halts without recording a server. Without one, the step continues, records the loop's server in the step and in the bag (nil when the zone list was empty), and leaves `error` alone |
| `RunSourceServer.StepRunSourceServer.Cleanup` | huaweicloud/step_run_source_server.go:141-176 | no server means no call and no report; a client-init failure is reported, with no call; otherwise one delete is issued, forced iff the configuration's `ForceDelete` is set; a failed delete is reported and no wait follows; otherwise one wait with pending `[ACTIVE, BUILD, REBUILD, SUSPENDED, SHUTOFF, STOPPED]`, target `[DELETED]` and no step state follows; the bag is never touched, so the pipeline is never halted |

## Left out

- Building the compute client (`config.computeV2Client`) is a foreign call. `Run` and `Cleanup` take its outcome as the parameter `clientErr`.
- The gophercloud calls (`servers.Create`, `Delete`, `ForceDelete`) are network calls. A `Provider` oracle answers them, as a function of all the calls made before and of the arguments.
- `WaitForState`, `StateChangeConf` and `ServerStateRefreshFunc` are not part of this model. One wait is one oracle reply, given the server and the pending and target lists. Cancellation through the step state is recorded only as the `cancellable` flag of the wait.
- `ioutil.ReadFile` is file I/O. `Run` takes its outcome as the parameter `fileData`, which is consulted only when a user-data file is named.
- UI and log messages (`ui.Say`, `ui.Message`, `log.Printf`) are presentation only. The errors `Cleanup` passes to `ui.Error` are returned as `reported`. Errors carry their cause, not their formatted text.
- The state bag's runtime type assertions are replaced by the typed `StateBag`. The model always has a `volume_id` entry; in Go a missing one makes the type assertion panic.
- `CreateOpts.ServiceClient` and the `Network` fields other than the UUID and the port are left out. The config-drive pointer to the step's field is modelled as the value it points to.
- `Cleanup`: `WaitForState`'s result is discarded at line 175, so a failed deletion wait goes unreported; the model does the same.
- The preferred-zone promotion is modelled as the code does it: a single transposition with the head, not a stable rotation (`Zones.PromotionIsNotRotation`).
- The step's own `ForceDelete` field is modelled but never read, as in the source. `Cleanup` uses the configuration's flag.
