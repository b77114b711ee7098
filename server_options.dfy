/** The creation request that the provisioning step assembles for the compute API:
    the base options (`servers.CreateOpts`), the merged network attachment list, and the
    chain of option extensions (boot-from-volume and key pair) wrapped around the base. */
module ServerOptions {
  import opened Wrappers

  /** Go strings and `[]byte` values are byte strings. */
  newtype byte = x: int | 0 <= x < 256

  /** One entry of `servers.CreateOpts.Networks`; the Go zero value has both fields empty. */
  datatype Network = Network(uuid: string, port: string)

  const ZeroNetwork := Network("", "")

  datatype SourceType = SourceBlank | SourceImage | SourceSnapshot | SourceVolume
  datatype DestinationType = DestinationLocal | DestinationVolume

  /** One entry of `bootfromvolume.BlockDevice` (block device mapping v2). */
  datatype BlockDevice = BlockDevice(
    bootIndex: int,
    destinationType: DestinationType,
    sourceType: SourceType,
    uuid: string)

  /** `servers.CreateOpts`, without the service client. */
  datatype CreateOpts = CreateOpts(
    name: string,
    imageRef: string,
    flavorRef: string,
    securityGroups: seq<string>,
    networks: seq<Network>,
    availabilityZone: string,
    userData: seq<byte>,
    configDrive: bool,
    metadata: map<string, string>)

  /** The chain of `CreateOptsBuilder` values. `BaseOpts` is the pointer to the step's
      one mutable `CreateOpts`: the chain does not hold a copy of the base, it reads
      whatever the base holds when the request is built. */
  datatype Builder =
    | BaseOpts
    | BootFromVolumeExt(inner: Builder, blockDevice: seq<BlockDevice>)
    | KeyPairExt(inner: Builder, keyName: string)

  /** What the compute API receives: the base options plus what each extension adds
      (`block_device_mapping_v2`, `key_name`). */
  datatype Request = Request(
    opts: CreateOpts,
    blockDevice: Option<seq<BlockDevice>>,
    keyName: Option<string>)

  /** The request that `chain` produces while the shared base options hold `base`.
      Every extension passes the base options through untouched. */
  function Flatten(chain: Builder, base: CreateOpts): (r: Request)
    ensures r.opts == base
    ensures chain.KeyPairExt? ==> r.keyName == Some(chain.keyName)
    ensures chain.BootFromVolumeExt? ==> r.blockDevice == Some(chain.blockDevice)
    ensures chain == BaseOpts ==> r.blockDevice == None && r.keyName == None
  {
    match chain
    case BaseOpts => Request(base, None, None)
    case BootFromVolumeExt(inner, devices) => Flatten(inner, base).(blockDevice := Some(devices))
    case KeyPairExt(inner, key) => Flatten(inner, base).(keyName := Some(key))
  }

  /** Each layer keeps what the inner layers added: a key-pair layer over a
      boot-from-volume layer keeps its block devices, and the reverse keeps the key name. */
  lemma FlattenKeepsInnerLayers(chain: Builder, base: CreateOpts)
    ensures chain.KeyPairExt? ==> Flatten(chain, base).blockDevice == Flatten(chain.inner, base).blockDevice
    ensures chain.BootFromVolumeExt? ==> Flatten(chain, base).keyName == Flatten(chain.inner, base).keyName
  {
  }

  /** The request of one creation attempt: the attempt first writes `zone` into the
      shared base options, and the chain then sees that zone. */
  function AttemptRequest(chain: Builder, base: CreateOpts, zone: string): (r: Request)
    ensures r.opts.availabilityZone == zone
    ensures r.opts == base.(availabilityZone := zone)
  {
    Flatten(chain, base.(availabilityZone := zone))
  }

  /** The requests of attempts in `zones`, in order. */
  function AttemptRequests(chain: Builder, base: CreateOpts, zones: seq<string>): (rs: seq<Request>)
    ensures |rs| == |zones|
    ensures forall j :: 0 <= j < |zones| ==> rs[j].opts.availabilityZone == zones[j]
  {
    seq(|zones|, j requires 0 <= j < |zones| => AttemptRequest(chain, base, zones[j]))
  }

  // ---------------------------------------------------------------------------
  // Network attachments

  /** Reference definition of the attachment list: one port entry per port, in order,
      then one network entry per network, in order. */
  function Merged(ports: seq<string>, networks: seq<string>): seq<Network>
  {
    seq(|ports|, i requires 0 <= i < |ports| => Network("", ports[i])) +
    seq(|networks|, i requires 0 <= i < |networks| => Network(networks[i], ""))
  }

  /** Fills a zero-initialised array of `|networks| + |ports|` entries, ports first,
      with one index running through both loops. */
  method MergeNetworks(ports: seq<string>, networks: seq<string>) returns (r: seq<Network>)
    ensures |r| == |ports| + |networks|
    ensures forall i :: 0 <= i < |ports| ==> r[i].port == ports[i] && r[i].uuid == ""
    ensures forall i :: |ports| <= i < |r| ==> r[i].uuid == networks[i - |ports|] && r[i].port == ""
    ensures r == Merged(ports, networks)
  {
    var a := new Network[|networks| + |ports|](_ => ZeroNetwork);
    var i := 0;
    while i < |ports|
      invariant 0 <= i <= |ports|
      invariant forall k :: 0 <= k < i ==> a[k] == Network("", ports[k])
      invariant forall k :: i <= k < a.Length ==> a[k] == ZeroNetwork
    {
      a[i] := a[i].(port := ports[i]);
      i := i + 1;
    }
    while i < a.Length
      invariant |ports| <= i <= a.Length
      invariant forall k :: 0 <= k < |ports| ==> a[k] == Network("", ports[k])
      invariant forall k :: |ports| <= k < i ==> a[k] == Network(networks[k - |ports|], "")
      invariant forall k :: i <= k < a.Length ==> a[k] == ZeroNetwork
    {
      a[i] := a[i].(uuid := networks[i - |ports|]);
      i := i + 1;
    }
    r := a[..];
  }

  // ---------------------------------------------------------------------------
  // Boot source and key pair

  /** The single boot device used for boot-from-volume. */
  function VolumeBootDevice(volumeId: string): BlockDevice
  {
    BlockDevice(0, DestinationVolume, SourceVolume, volumeId)
  }

  /** The base options after the boot source is decided: an image reference and a
      block device mapping are an invalid combination, so the image is cleared. */
  function BootOptions(base: CreateOpts, useVolume: bool): (o: CreateOpts)
    ensures useVolume ==> o.imageRef == ""
    ensures !useVolume ==> o == base
    ensures o.(imageRef := base.imageRef) == base
  {
    if useVolume then base.(imageRef := "") else base
  }

  /** The extension chain: a boot-from-volume layer when requested, then a key-pair
      layer, outermost, when the key name is non-empty. */
  function OptionChain(useVolume: bool, volumeId: string, keyName: string): (b: Builder)
    ensures b.KeyPairExt? <==> keyName != ""
    ensures b.KeyPairExt? ==> b.keyName == keyName && !b.inner.KeyPairExt?
    ensures b.KeyPairExt? ==>
      b.inner == if useVolume then BootFromVolumeExt(BaseOpts, [VolumeBootDevice(volumeId)]) else BaseOpts
    ensures keyName == "" ==>
      b == if useVolume then BootFromVolumeExt(BaseOpts, [VolumeBootDevice(volumeId)]) else BaseOpts
  {
    var ext := if useVolume then BootFromVolumeExt(BaseOpts, [VolumeBootDevice(volumeId)]) else BaseOpts;
    if keyName != "" then KeyPairExt(ext, keyName) else ext
  }

  /** The request an attempt in `zone` sends: its boot source, its key name and the
      untouched remainder of the base options. */
  function FinalRequest(base: CreateOpts, useVolume: bool, volumeId: string, keyName: string, zone: string): (r: Request)
    ensures useVolume ==> r.opts.imageRef == "" && r.blockDevice.Some? && |r.blockDevice.value| == 1
    ensures useVolume ==>
      var d := r.blockDevice.value[0];
      d.bootIndex == 0 && d.sourceType == SourceVolume && d.destinationType == DestinationVolume && d.uuid == volumeId
    ensures !useVolume ==> r.opts.imageRef == base.imageRef && r.blockDevice == None
    ensures r.keyName == if keyName != "" then Some(keyName) else None
    ensures r.opts == base.(imageRef := r.opts.imageRef, availabilityZone := zone)
  {
    AttemptRequest(OptionChain(useVolume, volumeId, keyName), BootOptions(base, useVolume), zone)
  }
}
