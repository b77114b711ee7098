/** The provisioning step: `Run` launches the source server, trying the candidate
    availability zones in turn, and publishes it; `Cleanup` deletes it again. */
module RunSourceServer {
  import opened Wrappers
  import opened ServerOptions
  import opened Compute
  import opened Zones

  /** The errors the step stores or reports, by the message that prefixes them. */
  datatype Error =
    | ClientInit(cause: string)            // "Error initializing compute client"
    | ReadUserData(cause: string)          // "Error reading user data file"
    | Launch(cause: string)                // "Error launching source server"
    | WaitReady(id: string, cause: string) // "Error waiting for server (id) to become ready"
    | Terminate(cause: string)             // "Error terminating server, may still be around"

  datatype StepAction = Continue | Halt

  /** The part of the builder configuration the step reads. */
  datatype Config = Config(forceDelete: bool, sshKeyPairName: string)

  /** The wait for a new server: `BUILD` until `ACTIVE`, cancellable through the step state. */
  const ReadyWait := WaitConf(["BUILD"], ["ACTIVE"], true)

  /** The wait after a delete: any of the live states until `DELETED`, without step state. */
  const DeletedWait := WaitConf(["ACTIVE", "BUILD", "REBUILD", "SUSPENDED", "SHUTOFF", "STOPPED"], ["DELETED"], false)

  // ---------------------------------------------------------------------------
  // createServer

  /** The specification of `createServer`: its result and the call log after it. */
  function CreateAttempt(p: Provider, hist: seq<Call>, req: Request): (r: (Result<Server, Error>, seq<Call>))
    ensures |r.1| > |hist|
  {
    var h := hist + [CreateCall(req)];
    match p.create(hist, req)
    case Failure(e) => (Failure(Launch(e)), h)
    case Success(s) =>
      var h' := h + [WaitCall(s.id, ReadyWait)];
      match p.wait(h, s, ReadyWait)
      case Failure(e) => (Failure(WaitReady(s.id, e)), h')
      case Success(latest) => (Success(latest), h')
  }

  /** An attempt appends to the log, starting with exactly one create call. */
  lemma CreateAttemptLog(p: Provider, hist: seq<Call>, req: Request)
    ensures var r := CreateAttempt(p, hist, req);
      r.1[..|hist|] == hist && r.1[|hist|] == CreateCall(req) &&
      CreateRequests(r.1[|hist|..]) == [req]
  {
    var h := hist + [CreateCall(req)];
    assert h[|hist|..] == [CreateCall(req)];
    if p.create(hist, req).Success? {
      var w := WaitCall(p.create(hist, req).value.id, ReadyWait);
      assert (h + [w])[|hist|..] == [CreateCall(req)] + [w];
      CreateRequestsAppend([CreateCall(req)], [w]);
    }
  }

  /** A failed create returns a launch error and calls nothing else; otherwise one wait
      for `ACTIVE` follows, and the attempt returns the waited-for server or a wait error
      naming the server. */
  lemma CreateAttemptOutcome(p: Provider, hist: seq<Call>, req: Request)
    ensures var r := CreateAttempt(p, hist, req);
      (p.create(hist, req).Failure? <==> r.1 == hist + [CreateCall(req)]) &&
      (p.create(hist, req).Failure? ==> r.0 == Failure(Launch(p.create(hist, req).error)))
    ensures var r := CreateAttempt(p, hist, req);
      p.create(hist, req).Success? ==>
      var s, h := p.create(hist, req).value, hist + [CreateCall(req)];
      r.1 == h + [WaitCall(s.id, ReadyWait)] &&
      (r.0.Success? <==> p.wait(h, s, ReadyWait).Success?) &&
      (r.0.Success? ==> r.0.value == p.wait(h, s, ReadyWait).value) &&
      (r.0.Failure? ==> r.0.error == WaitReady(s.id, p.wait(h, s, ReadyWait).error))
  {
  }

  /** `createServer`: a failed create returns at once; otherwise the server is waited
      for, and a failed wait returns an error without recording or deleting the server. */
  method CreateServer(cloud: Cloud, req: Request) returns (r: Result<Server, Error>)
    modifies cloud
    ensures (r, cloud.calls) == CreateAttempt(cloud.provider, old(cloud.calls), req)
  {
    var created := cloud.Create(req);
    if created.Failure? {
      return Failure(Launch(created.error));
    }
    var server := created.value;
    var latest := cloud.WaitForState(server, ReadyWait);
    if latest.Failure? {
      return Failure(WaitReady(server.id, latest.error));
    }
    return Success(latest.value);
  }

  // ---------------------------------------------------------------------------
  // The zone loop

  /** The attempts made by the zone loop and the call log after it. */
  datatype Attempts = Attempts(outcomes: seq<Result<Server, Error>>, calls: seq<Call>)
  {
    /** The loop's `err`: the last attempt's error, nil when that attempt succeeded
        or when no attempt was made. */
    function Err(): Option<Error>
    {
      if outcomes != [] && outcomes[|outcomes| - 1].Failure?
      then Some(outcomes[|outcomes| - 1].error) else None
    }

    /** The loop's `server`: the last attempt's server, nil otherwise. */
    function Created(): Option<Server>
    {
      if outcomes != [] && outcomes[|outcomes| - 1].Success?
      then Some(outcomes[|outcomes| - 1].value) else None
    }
  }

  /** The zone loop from index `j`, after the failed attempts `outs`: each attempt writes
      its zone into the shared options and calls `createServer`; the first success ends it. */
  function RetryFrom(p: Provider, hist: seq<Call>, chain: Builder, base: CreateOpts,
                     azs: seq<string>, j: nat, outs: seq<Result<Server, Error>>): (r: Attempts)
    requires j <= |azs|
    ensures |outs| <= |r.outcomes| <= |outs| + |azs| - j
    ensures |hist| <= |r.calls|
    decreases |azs| - j
  {
    if j == |azs| then Attempts(outs, hist)
    else
      var a := CreateAttempt(p, hist, AttemptRequest(chain, base, azs[j]));
      if a.0.Success? then Attempts(outs + [a.0], a.1)
      else RetryFrom(p, a.1, chain, base, azs, j + 1, outs + [a.0])
  }

  function Retry(p: Provider, hist: seq<Call>, chain: Builder, base: CreateOpts, azs: seq<string>): (r: Attempts)
    ensures |r.outcomes| <= |azs|
    ensures |hist| <= |r.calls|
  {
    RetryFrom(p, hist, chain, base, azs, 0, [])
  }

  lemma {:induction false} RetryFromOutcomes(p: Provider, hist: seq<Call>, chain: Builder, base: CreateOpts,
                                             azs: seq<string>, j: nat, outs: seq<Result<Server, Error>>)
    requires j <= |azs| && |outs| == j
    requires forall i :: 0 <= i < j ==> outs[i].Failure?
    ensures var r := RetryFrom(p, hist, chain, base, azs, j, outs);
      r.outcomes[..j] == outs &&
      (j < |azs| ==> j < |r.outcomes|) &&
      (forall i :: 0 <= i < |r.outcomes| - 1 ==> r.outcomes[i].Failure?) &&
      (|r.outcomes| < |azs| ==> r.outcomes[|r.outcomes| - 1].Success?)
    decreases |azs| - j
  {
    if j < |azs| {
      var a := CreateAttempt(p, hist, AttemptRequest(chain, base, azs[j]));
      if a.0.Failure? {
        var outs' := outs + [a.0];
        RetryFromOutcomes(p, a.1, chain, base, azs, j + 1, outs');
        var r := RetryFrom(p, a.1, chain, base, azs, j + 1, outs');
        assert r.outcomes[..j] == outs by {
          assert r.outcomes[..j + 1] == outs';
          assert r.outcomes[..j] == r.outcomes[..j + 1][..j];
        }
      }
    }
  }

  /** The loop only appends to the call log. */
  lemma {:induction false} RetryFromExtends(p: Provider, hist: seq<Call>, chain: Builder, base: CreateOpts,
                                            azs: seq<string>, j: nat, outs: seq<Result<Server, Error>>)
    requires j <= |azs|
    ensures RetryFrom(p, hist, chain, base, azs, j, outs).calls[..|hist|] == hist
    decreases |azs| - j
  {
    if j < |azs| {
      var req := AttemptRequest(chain, base, azs[j]);
      var a := CreateAttempt(p, hist, req);
      CreateAttemptLog(p, hist, req);
      if a.0.Failure? {
        RetryFromExtends(p, a.1, chain, base, azs, j + 1, outs + [a.0]);
      }
    }
  }

  lemma SuffixSplit(h: seq<Call>, m: seq<Call>, c: seq<Call>)
    requires |h| <= |m| <= |c| && c[..|m|] == m && m[..|h|] == h
    ensures c[|h|..] == m[|h|..] + c[|m|..]
  {
    assert c == m + c[|m|..];
  }

  /** The log of a failed attempt followed by the rest of the loop. */
  lemma CallsAfterAttempt(hist: seq<Call>, a: seq<Call>, c: seq<Call>, req: Request, rest: seq<Request>)
    requires |hist| <= |a| <= |c| && c[..|a|] == a && a[..|hist|] == hist
    requires CreateRequests(a[|hist|..]) == [req]
    requires CreateRequests(c[|a|..]) == rest
    ensures CreateRequests(c[|hist|..]) == [req] + rest
  {
    SuffixSplit(hist, a, c);
    CreateRequestsAppend(a[|hist|..], c[|a|..]);
  }

  /** The requests of the attempts from `j` on: the one at `j`, then those from `j + 1` on. */
  lemma RequestsCons(chain: Builder, base: CreateOpts, azs: seq<string>, j: nat, rest: seq<Request>)
    requires j + 1 + |rest| <= |azs|
    requires forall k :: 0 <= k < |rest| ==> rest[k] == AttemptRequest(chain, base, azs[j + 1 + k])
    ensures var all := [AttemptRequest(chain, base, azs[j])] + rest;
      forall k :: 0 <= k < |all| ==> all[k] == AttemptRequest(chain, base, azs[j + k])
  {
  }

  lemma {:induction false} RetryFromCalls(p: Provider, hist: seq<Call>, chain: Builder, base: CreateOpts,
                                          azs: seq<string>, j: nat, outs: seq<Result<Server, Error>>)
    requires j <= |azs| && |outs| == j
    ensures var r := RetryFrom(p, hist, chain, base, azs, j, outs);
      var reqs := CreateRequests(r.calls[|hist|..]);
      |reqs| == |r.outcomes| - |outs| &&
      forall k :: 0 <= k < |reqs| ==> reqs[k] == AttemptRequest(chain, base, azs[j + k])
    decreases |azs| - j
  {
    var r := RetryFrom(p, hist, chain, base, azs, j, outs);
    if j == |azs| {
      assert r.calls[|hist|..] == [];
    } else {
      var req := AttemptRequest(chain, base, azs[j]);
      var a := CreateAttempt(p, hist, req);
      CreateAttemptLog(p, hist, req);
      if a.0.Failure? {
        var outs' := outs + [a.0];
        assert r == RetryFrom(p, a.1, chain, base, azs, j + 1, outs');
        RetryFromCalls(p, a.1, chain, base, azs, j + 1, outs');
        RetryFromExtends(p, a.1, chain, base, azs, j + 1, outs');
        var rest := CreateRequests(r.calls[|a.1|..]);
        CallsAfterAttempt(hist, a.1, r.calls, req, rest);
        RequestsCons(chain, base, azs, j, rest);
      }
    }
  }

  /** The loop stops at the first success: every attempt but the last failed, and fewer
      attempts than zones means the last one succeeded. An empty zone list makes no attempt. */
  lemma RetryStopsAtFirstSuccess(p: Provider, hist: seq<Call>, chain: Builder, base: CreateOpts, azs: seq<string>)
    ensures var r := Retry(p, hist, chain, base, azs);
      |r.outcomes| <= |azs| && (r.outcomes == [] <==> azs == []) &&
      (forall i :: 0 <= i < |r.outcomes| - 1 ==> r.outcomes[i].Failure?) &&
      (|r.outcomes| < |azs| ==> r.outcomes[|r.outcomes| - 1].Success?)
  {
    RetryFromOutcomes(p, hist, chain, base, azs, 0, []);
  }

  /** Attempts run in list order: the k-th creation request carries zone `azs[k]`, and the
      loop issues one creation request per attempt and nothing but appends to the log. */
  lemma RetryAttemptsInOrder(p: Provider, hist: seq<Call>, chain: Builder, base: CreateOpts, azs: seq<string>)
    ensures var r := Retry(p, hist, chain, base, azs);
      |hist| <= |r.calls| && r.calls[..|hist|] == hist &&
      var reqs := CreateRequests(r.calls[|hist|..]);
      reqs == AttemptRequests(chain, base, azs[..|r.outcomes|]) &&
      |reqs| == |r.outcomes| &&
      forall k :: 0 <= k < |reqs| ==> reqs[k].opts == base.(availabilityZone := azs[k])
  {
    RetryFromCalls(p, hist, chain, base, azs, 0, []);
    RetryFromExtends(p, hist, chain, base, azs, 0, []);
    var r := Retry(p, hist, chain, base, azs);
    var reqs := CreateRequests(r.calls[|hist|..]);
    assert reqs == AttemptRequests(chain, base, azs[..|r.outcomes|]) by {
      assert forall k :: 0 <= k < |reqs| ==> reqs[k] == AttemptRequests(chain, base, azs[..|r.outcomes|])[k];
    }
  }

  /** If the first M attempts fail and attempt M+1 succeeds, exactly M+1 creation calls
      are made and the loop ends with that server and no error. */
  lemma RetryCallCount(p: Provider, hist: seq<Call>, chain: Builder, base: CreateOpts, azs: seq<string>, m: nat)
    requires var r := Retry(p, hist, chain, base, azs);
      m < |r.outcomes| && r.outcomes[m].Success?
    ensures var r := Retry(p, hist, chain, base, azs);
      |r.outcomes| == m + 1 && |CreateRequests(r.calls[|hist|..])| == m + 1 &&
      (forall i :: 0 <= i < m ==> r.outcomes[i].Failure?) &&
      r.Err() == None && r.Created() == Some(r.outcomes[m].value)
  {
    RetryStopsAtFirstSuccess(p, hist, chain, base, azs);
    RetryAttemptsInOrder(p, hist, chain, base, azs);
  }

  /** If the loop ends with an error, every zone was tried, every attempt failed, and the
      error kept is the last attempt's. */
  lemma RetryExhausted(p: Provider, hist: seq<Call>, chain: Builder, base: CreateOpts, azs: seq<string>)
    requires Retry(p, hist, chain, base, azs).Err().Some?
    ensures var r := Retry(p, hist, chain, base, azs);
      |r.outcomes| == |azs| > 0 && |CreateRequests(r.calls[|hist|..])| == |azs| &&
      (forall i :: 0 <= i < |azs| ==> r.outcomes[i].Failure?) &&
      r.Err() == Some(r.outcomes[|azs| - 1].error) && r.Created() == None
  {
    RetryStopsAtFirstSuccess(p, hist, chain, base, azs);
    RetryAttemptsInOrder(p, hist, chain, base, azs);
  }

  /** With no candidate zone nothing is attempted and no error is left behind. */
  lemma RetryNoZones(p: Provider, hist: seq<Call>, chain: Builder, base: CreateOpts)
    ensures var r := Retry(p, hist, chain, base, []);
      r.outcomes == [] && r.calls == hist && r.Err() == None && r.Created() == None
  {
  }

  lemma {:induction false} RetryFromActive(p: Provider, hist: seq<Call>, chain: Builder, base: CreateOpts,
                                           azs: seq<string>, j: nat, outs: seq<Result<Server, Error>>)
    requires PollerSound(p)
    requires j <= |azs|
    requires Attempts(outs, hist).Created().Some? ==> Attempts(outs, hist).Created().value.status == "ACTIVE"
    ensures var c := RetryFrom(p, hist, chain, base, azs, j, outs).Created();
      c.Some? ==> c.value.status == "ACTIVE"
    decreases |azs| - j
  {
    if j < |azs| {
      var req := AttemptRequest(chain, base, azs[j]);
      var a := CreateAttempt(p, hist, req);
      var outs' := outs + [a.0];
      if a.0.Success? {
        var s := p.create(hist, req).value;
        var w := p.wait(hist + [CreateCall(req)], s, ReadyWait);
        assert w.value.status in ReadyWait.target;
      } else {
        RetryFromActive(p, a.1, chain, base, azs, j + 1, outs');
      }
    }
  }

  /** With a poller that reports success only on a target status, the server the loop
      ends with is `ACTIVE`. */
  lemma RetryCreatedIsActive(p: Provider, hist: seq<Call>, chain: Builder, base: CreateOpts, azs: seq<string>)
    requires PollerSound(p)
    ensures var r := Retry(p, hist, chain, base, azs);
      r.Created().Some? ==> r.Created().value.status == "ACTIVE"
  {
    RetryFromActive(p, hist, chain, base, azs, 0, []);
  }

  /** Every creation request the loop sends over the assembled chain and boot options is
      the final request for its zone: boot source and key name as `FinalRequest` states. */
  lemma RetryRequestsAreFinal(p: Provider, hist: seq<Call>, base: CreateOpts, useVolume: bool,
                              volumeId: string, keyName: string, azs: seq<string>)
    ensures var r := Retry(p, hist, OptionChain(useVolume, volumeId, keyName), BootOptions(base, useVolume), azs);
      var reqs := CreateRequests(r.calls[|hist|..]);
      |reqs| <= |azs| &&
      forall k :: 0 <= k < |reqs| ==> reqs[k] == FinalRequest(base, useVolume, volumeId, keyName, azs[k])
  {
    RetryAttemptsInOrder(p, hist, OptionChain(useVolume, volumeId, keyName), BootOptions(base, useVolume), azs);
  }

  /** When the preferred zone is listed, the first creation request goes to it. */
  lemma PreferredZoneTriedFirst(p: Provider, hist: seq<Call>, chain: Builder, base: CreateOpts,
                                azs: seq<string>, preferred: string)
    requires preferred != "" && preferred in azs
    ensures var r := Retry(p, hist, chain, base, Promoted(azs, preferred));
      var reqs := CreateRequests(r.calls[|hist|..]);
      |reqs| > 0 && reqs[0].opts.availabilityZone == preferred
  {
    PromotedSwapsHead(azs, preferred);
    RetryStopsAtFirstSuccess(p, hist, chain, base, Promoted(azs, preferred));
    RetryAttemptsInOrder(p, hist, chain, base, Promoted(azs, preferred));
  }

  /** A provider that refuses to create servers in zone `az2`, creates `srv-1` anywhere
      else, and whose waits end in `ACTIVE`. */
  function NoCapacityInAz2(): Provider
  {
    Provider(
      (h: seq<Call>, req: Request) =>
        if req.opts.availabilityZone == "az2" then Failure("no capacity") else Success(Server("srv-1", "BUILD")),
      (h: seq<Call>, s: Server, c: WaitConf) => Success(s.(status := "ACTIVE")),
      (h: seq<Call>, id: string, force: bool) => None)
  }

  /** Zones `[az1, az2]` with `az2` preferred: `az2` is promoted and tried first, fails,
      and the second and last creation request goes to `az1`, which succeeds. */
  lemma PreferredZoneFailsScenario(chain: Builder, base: CreateOpts)
    ensures Promoted(["az1", "az2"], "az2") == ["az2", "az1"]
    ensures var r := Retry(NoCapacityInAz2(), [], chain, base, ["az2", "az1"]);
      var reqs := CreateRequests(r.calls);
      |reqs| == 2 && reqs[0].opts.availabilityZone == "az2" && reqs[1].opts.availabilityZone == "az1" &&
      r.Err() == None && r.Created() == Some(Server("srv-1", "ACTIVE"))
  {
    assert Find(["az1", "az2"], "az2") == 1 by {
      assert ["az1", "az2"][1..] == ["az2"];
    }
    var p, azs := NoCapacityInAz2(), ["az2", "az1"];
    var a0 := CreateAttempt(p, [], AttemptRequest(chain, base, azs[0]));
    var a1 := CreateAttempt(p, a0.1, AttemptRequest(chain, base, azs[1]));
    assert a0.0.Failure? && a1.0.Success?;
    RetryStopsAtFirstSuccess(p, [], chain, base, azs);
    RetryAttemptsInOrder(p, [], chain, base, azs);
  }

  /** The zone loop of `Run`: for each zone of the shared slice, in order, write the zone
      into the shared options and call `createServer`, stopping at the first success.
      `serverOpts` is the options value the chain `ext` points to. */
  method LaunchInZones(cloud: Cloud, ext: Builder, serverOpts: CreateOpts, azs: array<string>)
    returns (srv: Option<Server>, err: Option<Error>)
    modifies cloud
    ensures var r := Retry(cloud.provider, old(cloud.calls), ext, serverOpts, azs[..]);
      cloud.calls == r.calls && err == r.Err() && srv == r.Created()
  {
    var opts := serverOpts;
    ghost var calls0 := cloud.calls;
    ghost var zones := azs[..];
    ghost var outs: seq<Result<Server, Error>> := [];
    srv, err := None, None;
    var j := 0;
    while j < azs.Length
      invariant 0 <= j <= azs.Length && |outs| == j
      invariant opts == serverOpts.(availabilityZone := opts.availabilityZone)
      invariant forall i :: 0 <= i < j ==> outs[i].Failure?
      invariant RetryFrom(cloud.provider, cloud.calls, ext, serverOpts, zones, j, outs)
             == Retry(cloud.provider, calls0, ext, serverOpts, zones)
      invariant err == Attempts(outs, cloud.calls).Err() && srv == None
    {
      var az := azs[j];
      opts := opts.(availabilityZone := az);
      var r := CreateServer(cloud, Flatten(ext, opts));
      outs := outs + [r];
      j := j + 1;
      srv := if r.Success? then Some(r.value) else None;
      err := if r.Failure? then Some(r.error) else None;
      if err == None {
        assert Attempts(outs, cloud.calls) == Retry(cloud.provider, calls0, ext, serverOpts, zones);
        break;
      }
    }
    assert Attempts(outs, cloud.calls) == Retry(cloud.provider, calls0, ext, serverOpts, zones);
  }

  // ---------------------------------------------------------------------------
  // The step

  /** The typed entries of the pipeline's state bag that the step reads and writes. */
  class StateBag {
    const config: Config
    const flavorId: string
    const sourceImage: string
    const volumeId: string
    /** The candidate zones; the slice is shared, so the promotion swap is visible here. */
    const azs: array<string>
    /** The `error` entry. */
    var error: Option<Error>
    /** The `server` entry: `None` while absent, `Some(None)` once a nil server is put. */
    var server: Option<Option<Server>>

    constructor (config: Config, flavorId: string, sourceImage: string, volumeId: string, azs: array<string>)
      ensures this.config == config && this.flavorId == flavorId && this.sourceImage == sourceImage
      ensures this.volumeId == volumeId && this.azs == azs
      ensures error == None && server == None
    {
      this.config := config;
      this.flavorId := flavorId;
      this.sourceImage := sourceImage;
      this.volumeId := volumeId;
      this.azs := azs;
      error := None;
      server := None;
    }
  }

  class StepRunSourceServer {
    const name: string
    const securityGroups: seq<string>
    const networks: seq<string>
    const ports: seq<string>
    const availabilityZone: string
    const userData: seq<byte>
    const userDataFile: string
    const configDrive: bool
    const instanceMetadata: map<string, string>
    const useBlockStorageVolume: bool
    /** Declared by the step but never read: `Cleanup` consults the configuration's flag. */
    const forceDelete: bool
    /** The server `Run` launched, read by `Cleanup`. */
    var server: Option<Server>

    constructor (name: string, securityGroups: seq<string>, networks: seq<string>, ports: seq<string>,
                 availabilityZone: string, userData: seq<byte>, userDataFile: string, configDrive: bool,
                 instanceMetadata: map<string, string>, useBlockStorageVolume: bool, forceDelete: bool)
      ensures this.name == name && this.securityGroups == securityGroups
      ensures this.networks == networks && this.ports == ports
      ensures this.availabilityZone == availabilityZone && this.userData == userData
      ensures this.userDataFile == userDataFile && this.configDrive == configDrive
      ensures this.instanceMetadata == instanceMetadata
      ensures this.useBlockStorageVolume == useBlockStorageVolume && this.forceDelete == forceDelete
      ensures server == None
    {
      this.name := name;
      this.securityGroups := securityGroups;
      this.networks := networks;
      this.ports := ports;
      this.availabilityZone := availabilityZone;
      this.userData := userData;
      this.userDataFile := userDataFile;
      this.configDrive := configDrive;
      this.instanceMetadata := instanceMetadata;
      this.useBlockStorageVolume := useBlockStorageVolume;
      this.forceDelete := forceDelete;
      server := None;
    }

    /** The user data sent: the file's bytes when a file is named, else the inline string. */
    function UserDataFrom(fileData: Result<seq<byte>, string>): seq<byte>
      requires userDataFile != "" ==> fileData.Success?
    {
      if userDataFile != "" then fileData.value else userData
    }

    /** The shared `serverOpts` once the boot source is decided. */
    function ServerOpts(sourceImage: string, flavorId: string, data: seq<byte>): CreateOpts
    {
      BootOptions(CreateOpts(name, sourceImage, flavorId, securityGroups, Merged(ports, networks),
                             availabilityZone, data, configDrive, instanceMetadata),
                  useBlockStorageVolume)
    }

    /** `Run`. `clientErr` is the outcome of building the compute client and `fileData`
        the outcome of reading `userDataFile` (consulted only when a file is named). */
    method Run(bag: StateBag, cloud: Cloud, clientErr: Option<string>, fileData: Result<seq<byte>, string>)
      returns (action: StepAction)
      modifies this, bag, bag.azs, cloud
      ensures clientErr.Some? ==>
        action == Halt && bag.error == Some(ClientInit(clientErr.value)) &&
        bag.server == old(bag.server) && server == old(server) &&
        cloud.calls == old(cloud.calls) && bag.azs[..] == old(bag.azs[..])
      ensures clientErr.None? && userDataFile != "" && fileData.Failure? ==>
        action == Halt && bag.error == Some(ReadUserData(fileData.error)) &&
        bag.server == old(bag.server) && server == old(server) &&
        cloud.calls == old(cloud.calls) && bag.azs[..] == old(bag.azs[..])
      ensures clientErr.None? && (userDataFile != "" ==> fileData.Success?) ==>
        bag.azs[..] == Promoted(old(bag.azs[..]), availabilityZone) &&
        var r := Retry(cloud.provider, old(cloud.calls),
                       OptionChain(useBlockStorageVolume, bag.volumeId, bag.config.sshKeyPairName),
                       ServerOpts(bag.sourceImage, bag.flavorId, UserDataFrom(fileData)),
                       bag.azs[..]);
        cloud.calls == r.calls &&
        (r.Err().Some? ==>
          action == Halt && bag.error == r.Err() && bag.server == old(bag.server) && server == old(server)) &&
        (r.Err().None? ==>
          action == Continue && server == r.Created() && bag.server == Some(r.Created()) &&
          bag.error == old(bag.error))
    {
      if clientErr.Some? {
        bag.error := Some(ClientInit(clientErr.value));
        return Halt;
      }

      var nets := MergeNetworks(ports, networks);

      var data := userData;
      if userDataFile != "" {
        if fileData.Failure? {
          bag.error := Some(ReadUserData(fileData.error));
          return Halt;
        }
        data := fileData.value;
      }

      var serverOpts := CreateOpts(name, bag.sourceImage, bag.flavorId, securityGroups, nets,
                                   availabilityZone, data, configDrive, instanceMetadata);
      var ext: Builder;
      if useBlockStorageVolume {
        var blockDevices := [BlockDevice(0, DestinationVolume, SourceVolume, bag.volumeId)];
        serverOpts := serverOpts.(imageRef := "");
        ext := BootFromVolumeExt(BaseOpts, blockDevices);
      } else {
        ext := BaseOpts;
      }
      var keyName := bag.config.sshKeyPairName;
      if keyName != "" {
        ext := KeyPairExt(ext, keyName);
      }

      PromoteZone(bag.azs, availabilityZone);

      var srv, err := LaunchInZones(cloud, ext, serverOpts, bag.azs);

      if err.Some? {
        bag.error := err;
        return Halt;
      }

      server := srv;
      bag.server := Some(srv);
      return Continue;
    }

    /** `Cleanup`. It never halts the pipeline: what it would report through the UI is
        returned in `reported`. `clientErr` is the outcome of building the compute client. */
    method Cleanup(bag: StateBag, cloud: Cloud, clientErr: Option<string>) returns (reported: Option<Error>)
      modifies cloud
      ensures server.None? ==> reported == None && cloud.calls == old(cloud.calls)
      ensures server.Some? && clientErr.Some? ==>
        reported == Some(Terminate(clientErr.value)) && cloud.calls == old(cloud.calls)
      ensures server.Some? && clientErr.None? ==>
        var id, force := server.value.id, bag.config.forceDelete;
        var del := cloud.provider.delete(old(cloud.calls), id, force);
        reported == (if del.Some? then Some(Terminate(del.value)) else None) &&
        cloud.calls == old(cloud.calls) + [DeleteCall(id, force)] +
                       (if del.None? then [WaitCall(id, DeletedWait)] else [])
    {
      if server.None? {
        return None;
      }
      if clientErr.Some? {
        return Some(Terminate(clientErr.value));
      }
      var id := server.value.id;
      var err: Option<string>;
      if bag.config.forceDelete {
        err := cloud.ForceDelete(id);
      } else {
        err := cloud.Delete(id);
      }
      if err.Some? {
        return Some(Terminate(err.value));
      }
      var _ := cloud.WaitForState(server.value, DeletedWait);
      return None;
    }
  }
}
