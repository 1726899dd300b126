/**
 * Model of package `drivers`, file virtcontainers/device/drivers/vfio.go:
 * passthrough of a host IOMMU group into a VM through VFIO.
 *
 * - `GetBdf` parses a sysfs entry name such as "0000:00:1c.0".
 * - `BindDeviceToVfio` / `BindDeviceToHost` rebind a PCI function between
 *   its host driver and vfio-pci through three sysfs writes each.
 * - `VfioDevice` is the device entity with its Attach/Detach lifecycle,
 *   driven by the `hotplugged` flag of a `DeviceInfo` shared with the caller.
 *
 * The kernel and the hypervisor are oracles: a write to a sysfs file fails or
 * not according to `outcome`, the IOMMU group listing comes from `IommuSysfs`,
 * the hotplug receiver answers from `Receiver.answer`.
 */
module Drivers {
  import opened Wrappers
  import opened Strings

  // ---------------------------------------------------------------------
  // BDF parsing
  // ---------------------------------------------------------------------

  /** Prefix of the error `GetBdf` returns; the offending name follows it. */
  const BdfTokenError := "Incorrect number of tokens found while parsing bdf for device : "

  /**
   * The BDF ("bus:slot.func") of a sysfs entry name "domain:bus:slot.func".
   * Only the number of colons is checked: any name with exactly two colons
   * is accepted and everything after its first colon is returned.
   */
  function GetBdf(deviceSysStr: string): (r: Result<string, string>)
    ensures r.Success? <==> Count(deviceSysStr, ':') == 2
    ensures r.Failure? ==> r.error == BdfTokenError + deviceSysStr
  {
    var tokens := Split(deviceSysStr, ':');
    if |tokens| != 3 then
      Failure(BdfTokenError + deviceSysStr)
    else
      var tokens := SplitN(deviceSysStr, ':', 2);
      Success(tokens[1])
  }

  /**
   * A parsed BDF is what follows the first colon of the entry name: the name
   * is a colon-free domain, a colon and the BDF, and the BDF keeps exactly one colon.
   */
  lemma GetBdfSuffix(deviceSysStr: string)
    requires GetBdf(deviceSysStr).Success?
    ensures var bdf := GetBdf(deviceSysStr).value;
      |bdf| < |deviceSysStr| &&
      var domain := deviceSysStr[..|deviceSysStr| - |bdf| - 1];
      deviceSysStr == domain + ":" + bdf && ':' !in domain && Count(bdf, ':') == 1
  {
    var tokens := SplitN(deviceSysStr, ':', 2);
    SplitNPieces(deviceSysStr, ':', 2);
    assert Join(tokens, ':') == tokens[0] + [':'] + tokens[1];
    CountConcat(tokens[0] + [':'], tokens[1], ':');
    CountConcat(tokens[0], [':'], ':');
    CountAbsent(tokens[0], ':');
  }

  /**
   * Conversely, a colon-free domain, a colon and a one-colon BDF parse back
   * to that BDF.
   */
  lemma GetBdfOfName(domain: string, bdf: string)
    requires ':' !in domain && Count(bdf, ':') == 1
    ensures GetBdf(domain + ":" + bdf) == Success(bdf)
  {
    var name := domain + ":" + bdf;
    SeparatorAfter(domain, bdf, ':');
    assert name[|domain|] == ':' && name[..|domain|] == domain;
    assert Index(name, ':') == |domain|;
    assert name[|domain| + 1..] == bdf;
    assert SplitN(bdf, ':', 1) == [bdf];
    assert SplitN(name, ':', 2) == [domain] + SplitN(bdf, ':', 1);
  }

  /** The documented example: "0000:00:1c.0" has the BDF "00:1c.0". */
  lemma GetBdfDocumentedExample()
    ensures GetBdf("0000:00:1c.0") == Success("00:1c.0")
  {
    SeparatorAfter("00", "1c.0", ':');
    CountAbsent("1c.0", ':');
    assert "00" + ":" + "1c.0" == "00:1c.0";
    GetBdfOfName("0000", "00:1c.0");
    assert "0000" + ":" + "00:1c.0" == "0000:00:1c.0";
  }

  /** Only colons are checked: "a:b:c" is no PCI address but is accepted. */
  lemma GetBdfChecksOnlyColons()
    ensures GetBdf("a:b:c") == Success("b:c")
  {
    SeparatorAfter("b", "c", ':');
    CountAbsent("c", ':');
    assert "b" + ":" + "c" == "b:c";
    GetBdfOfName("a", "b:c");
    assert "a" + ":" + "b:c" == "a:b:c";
  }

  /** A name without the domain part, and the empty name, are rejected. */
  lemma GetBdfRejectsMissingDomain()
    ensures GetBdf("0000:1c.0") == Failure(BdfTokenError + "0000:1c.0")
    ensures GetBdf("") == Failure(BdfTokenError)
  {
    SeparatorAfter("0000", "1c.0", ':');
    CountAbsent("1c.0", ':');
    assert "0000" + ":" + "1c.0" == "0000:1c.0";
    assert BdfTokenError + "" == BdfTokenError;
  }

  /** A name with a third colon is rejected. */
  lemma GetBdfRejectsExtraColon()
    ensures GetBdf("0000:00:1c:0").Failure?
  {
    CountAbsent("0", ':');
    SeparatorAfter("1c", "0", ':');
    SeparatorAfter("00", "1c:0", ':');
    SeparatorAfter("0000", "00:1c:0", ':');
    assert "1c" + ":" + "0" == "1c:0";
    assert "00" + ":" + "1c:0" == "00:1c:0";
    assert "0000" + ":" + "00:1c:0" == "0000:00:1c:0";
  }

  // ---------------------------------------------------------------------
  // sysfs path templates and the driver rebind workflows
  // ---------------------------------------------------------------------

  /** A format string with a single `%s` verb: the text before it and after it. */
  datatype Template = Template(prefix: string, suffix: string)

  /** `fmt.Sprintf(t, arg)` for a one-verb template and a string argument. */
  function Sprintf(t: Template, arg: string): string
  {
    t.prefix + arg + t.suffix
  }

  const PciDriverUnbindPath := Template("/sys/bus/pci/devices/", "/driver/unbind")
  const PciDriverBindPath := Template("/sys/bus/pci/drivers/", "/bind")
  const VfioNewIdPath := "/sys/bus/pci/drivers/vfio-pci/new_id"
  const VfioRemoveIdPath := "/sys/bus/pci/drivers/vfio-pci/remove_id"

  /** Different arguments give different paths from the same template. */
  lemma SprintfInjective(t: Template, a: string, b: string)
    ensures Sprintf(t, a) == Sprintf(t, b) <==> a == b
  {
    if Sprintf(t, a) == Sprintf(t, b) {
      assert a == Sprintf(t, a)[|t.prefix|..|t.prefix| + |a|];
      assert b == Sprintf(t, b)[|t.prefix|..|t.prefix| + |b|];
    }
  }

  /**
   * The per-device unbind path lies under /sys/bus/pci/devices/ and can never
   * be a driver control file under /sys/bus/pci/drivers/.
   */
  lemma UnbindPathIsNoDriverPath(bdf: string, driver: string)
    ensures Sprintf(PciDriverUnbindPath, bdf) != Sprintf(PciDriverBindPath, driver)
    ensures Sprintf(PciDriverUnbindPath, bdf) != VfioNewIdPath
    ensures Sprintf(PciDriverUnbindPath, bdf) != VfioRemoveIdPath
  {
    assert Sprintf(PciDriverUnbindPath, bdf)[14] == 'e';
    assert Sprintf(PciDriverBindPath, driver)[14] == 'r';
    assert VfioNewIdPath[14] == 'r';
    assert VfioRemoveIdPath[14] == 'r';
  }

  /** One attempted `utils.WriteToFile(path, data)`. */
  datatype Write = Write(path: string, data: string)

  /** What a rebind workflow reports: the error it returns and the writes it attempted, in order. */
  datatype Report = Report(err: Outcome<string>, writes: seq<Write>)

  /**
   * The index of the first failing write among the first `n`, or `n` when
   * none of them fails; `outcome(k)` is the result of the k-th write.
   */
  function FirstFailure(outcome: nat -> Outcome<string>, n: nat): (k: nat)
    ensures k <= n
    ensures forall i :: 0 <= i < k ==> outcome(i).Pass?
    ensures k < n ==> outcome(k).Fail?
  {
    if n == 0 then 0
    else
      var k := FirstFailure(outcome, n - 1);
      if k < n - 1 then k else if outcome(n - 1).Fail? then n - 1 else n
  }

  /**
   * Reference semantics of a rebind workflow: the writes of `plan` are
   * attempted in order; a failure of one of the first `fatal` writes stops the
   * workflow and is returned, a failure of a later write is ignored.
   */
  function Run(plan: seq<Write>, fatal: nat, outcome: nat -> Outcome<string>): (r: Report)
    requires fatal <= |plan|
    ensures |r.writes| <= |plan| && r.writes == plan[..|r.writes|]
    ensures r.err.Fail? <==> exists i :: 0 <= i < fatal && outcome(i).Fail?
    ensures r.err.Pass? ==> r.writes == plan
    ensures r.err.Fail? ==>
      0 < |r.writes| <= fatal && r.err == outcome(|r.writes| - 1) &&
      forall i :: 0 <= i < |r.writes| - 1 ==> outcome(i).Pass?
  {
    var k := FirstFailure(outcome, fatal);
    if k < fatal then Report(outcome(k), plan[..k + 1]) else Report(Pass, plan)
  }

  /** The three writes that move `bdf` onto vfio-pci. */
  function VfioBindPlan(bdf: string, vendorDeviceId: string): seq<Write>
  {
    [ Write(Sprintf(PciDriverUnbindPath, bdf), bdf),
      Write(VfioNewIdPath, vendorDeviceId),
      Write(Sprintf(PciDriverBindPath, "vfio-pci"), bdf) ]
  }

  /** The three writes that move `bdf` back onto `hostDriver`. */
  function HostBindPlan(bdf: string, hostDriver: string, vendorDeviceId: string): seq<Write>
  {
    [ Write(Sprintf(PciDriverUnbindPath, bdf), bdf),
      Write(VfioRemoveIdPath, vendorDeviceId),
      Write(Sprintf(PciDriverBindPath, hostDriver), bdf) ]
  }

  /**
   * `utils.WriteToFile(path, data)` as seen from a workflow that has already
   * attempted the writes in `trace`: the write is recorded and its result is
   * the oracle's answer for that position.
   */
  method WriteToFile(path: string, data: string, outcome: nat -> Outcome<string>, trace: seq<Write>)
    returns (err: Outcome<string>, trace': seq<Write>)
    ensures trace' == trace + [Write(path, data)]
    ensures err == outcome(|trace|)
  {
    err := outcome(|trace|);
    trace' := trace + [Write(path, data)];
  }

  /**
   * BindDevicetoVFIO: unbind `bdf` from its driver, register `vendorDeviceId`
   * with vfio-pci, bind `bdf` to vfio-pci. The first two writes are fatal;
   * the last one may fail because vfio-pci already claimed the device after
   * new_id, so its error is dropped. `hostDriver` is not used.
   */
  method BindDeviceToVfio(bdf: string, hostDriver: string, vendorDeviceId: string, outcome: nat -> Outcome<string>)
    returns (err: Outcome<string>, writes: seq<Write>)
    ensures Report(err, writes) == Run(VfioBindPlan(bdf, vendorDeviceId), 2, outcome)
    ensures outcome(0).Pass? && outcome(1).Pass? ==> err.Pass? && writes == VfioBindPlan(bdf, vendorDeviceId)
  {
    writes := [];
    var unbindDriverPath := Sprintf(PciDriverUnbindPath, bdf);
    err, writes := WriteToFile(unbindDriverPath, bdf, outcome, writes);
    if err.Fail? {
      return;
    }
    err, writes := WriteToFile(VfioNewIdPath, vendorDeviceId, outcome, writes);
    if err.Fail? {
      return;
    }
    var bindDriverPath := Sprintf(PciDriverBindPath, "vfio-pci");
    var ignored;
    ignored, writes := WriteToFile(bindDriverPath, bdf, outcome, writes);
    err := Pass;
  }

  /**
   * BindDevicetoHost: unbind `bdf` from vfio-pci, deregister `vendorDeviceId`
   * from vfio-pci, bind `bdf` to `hostDriver`. Every write is fatal and the
   * last one's error is the result.
   */
  method BindDeviceToHost(bdf: string, hostDriver: string, vendorDeviceId: string, outcome: nat -> Outcome<string>)
    returns (err: Outcome<string>, writes: seq<Write>)
    ensures Report(err, writes) == Run(HostBindPlan(bdf, hostDriver, vendorDeviceId), 3, outcome)
    ensures outcome(0).Pass? && outcome(1).Pass? ==> err == outcome(2) && writes == HostBindPlan(bdf, hostDriver, vendorDeviceId)
  {
    writes := [];
    var unbindDriverPath := Sprintf(PciDriverUnbindPath, bdf);
    err, writes := WriteToFile(unbindDriverPath, bdf, outcome, writes);
    if err.Fail? {
      return;
    }
    err, writes := WriteToFile(VfioRemoveIdPath, vendorDeviceId, outcome, writes);
    if err.Fail? {
      return;
    }
    var bindDriverPath := Sprintf(PciDriverBindPath, hostDriver);
    err, writes := WriteToFile(bindDriverPath, bdf, outcome, writes);
  }

  /**
   * The two workflows share exactly one path, the device's unbind file,
   * unless the "host" driver is vfio-pci itself, when the bind files coincide too.
   */
  lemma RebindPathsOverlap(bdf: string, hostDriver: string, vendorDeviceId: string, i: nat, j: nat)
    requires i < 3 && j < 3
    ensures VfioBindPlan(bdf, vendorDeviceId)[i].path == HostBindPlan(bdf, hostDriver, vendorDeviceId)[j].path
            <==> (i == 0 && j == 0) || (i == 2 && j == 2 && hostDriver == "vfio-pci")
  {
    var vfio, host := VfioBindPlan(bdf, vendorDeviceId), HostBindPlan(bdf, hostDriver, vendorDeviceId);
    if i == 0 || j == 0 {
      UnbindPathIsNoDriverPath(bdf, hostDriver);
      UnbindPathIsNoDriverPath(bdf, "vfio-pci");
    } else if i == 2 && j == 2 {
      SprintfInjective(PciDriverBindPath, "vfio-pci", hostDriver);
    } else if i == 1 && j == 2 {
      BindPathIsNoIdPath(hostDriver);
    } else if i == 2 && j == 1 {
      BindPathIsNoIdPath("vfio-pci");
    } else {
      assert |VfioNewIdPath| != |VfioRemoveIdPath|;
    }
  }

  /** A driver's bind file ends in "/bind", never in vfio-pci's "new_id" or "remove_id". */
  lemma BindPathIsNoIdPath(driver: string)
    ensures Sprintf(PciDriverBindPath, driver) != VfioNewIdPath
    ensures Sprintf(PciDriverBindPath, driver) != VfioRemoveIdPath
  {
    var p := Sprintf(PciDriverBindPath, driver);
    assert p[|p| - 2] == 'n';
    assert VfioNewIdPath[|VfioNewIdPath| - 2] == 'i';
    assert VfioRemoveIdPath[|VfioRemoveIdPath| - 2] == 'i';
  }

  /**
   * A caller that moves a device onto vfio-pci and back, on a kernel where all
   * six writes succeed, issues the three writes of each plan, in that order.
   */
  method RebindRoundTrip(bdf: string, hostDriver: string, vendorDeviceId: string, outcome: nat -> Outcome<string>)
    returns (toVfio: Outcome<string>, toHost: Outcome<string>, writes: seq<Write>)
    ensures (forall k :: 0 <= k < 6 ==> outcome(k).Pass?) ==>
      toVfio.Pass? && toHost.Pass? && |writes| == 6 &&
      writes == VfioBindPlan(bdf, vendorDeviceId) + HostBindPlan(bdf, hostDriver, vendorDeviceId)
  {
    var first, second;
    toVfio, first := BindDeviceToVfio(bdf, hostDriver, vendorDeviceId, outcome);
    var offset := |first|;
    toHost, second := BindDeviceToHost(bdf, hostDriver, vendorDeviceId, (k: nat) => outcome(k + offset));
    writes := first + second;
  }

  // ---------------------------------------------------------------------
  // the VFIO device entity
  // ---------------------------------------------------------------------

  /** The device kinds a hotplug receiver is told about; this driver only uses one. */
  datatype DeviceKind = DeviceVFIO

  /** The caller's `config.DeviceInfo`, shared by reference with the device. */
  class DeviceInfo {
    var id: string
    var hostPath: string
    var hotplugged: bool

    constructor (id: string, hostPath: string, hotplugged: bool)
      ensures this.id == id && this.hostPath == hostPath && this.hotplugged == hotplugged
    {
      this.id, this.hostPath, this.hotplugged := id, hostPath, hotplugged;
    }
  }

  /** `config.VFIODev`: one member of the IOMMU group. */
  datatype VfioDev = VfioDev(id: string, bdf: string)

  /** A request made to the hotplug receiver. */
  datatype HotplugRequest =
    | HotplugAdd(device: VfioDevice, kind: DeviceKind)
    | HotplugRemove(device: VfioDevice, kind: DeviceKind)

  /**
   * The hypervisor-side `api.DeviceReceiver`: it records every request and
   * answers the k-th one with `answer(k)`.
   */
  class Receiver {
    var requests: seq<HotplugRequest>
    const answer: nat -> Outcome<string>

    constructor (answer: nat -> Outcome<string>)
      ensures this.answer == answer && requests == []
    {
      this.answer := answer;
      requests := [];
    }

    method HotplugAddDevice(device: VfioDevice, kind: DeviceKind) returns (err: Outcome<string>)
      modifies this`requests
      ensures requests == old(requests) + [HotplugAdd(device, kind)]
      ensures err == answer(|old(requests)|)
    {
      err := answer(|requests|);
      requests := requests + [HotplugAdd(device, kind)];
    }

    method HotplugRemoveDevice(device: VfioDevice, kind: DeviceKind) returns (err: Outcome<string>)
      modifies this`requests
      ensures requests == old(requests) + [HotplugRemove(device, kind)]
      ensures err == answer(|old(requests)|)
    {
      err := answer(|requests|);
      requests := requests + [HotplugRemove(device, kind)];
    }
  }

  /**
   * The host's view of the IOMMU groups: the k-th listing of the `devices`
   * directory of the group named by a host path gives
   * `groupDevices(k, hostPath)`, so a group may change between listings;
   * every listing is recorded in `listed`.
   */
  class IommuSysfs {
    var listed: seq<string>
    const groupDevices: (nat, string) -> Result<seq<string>, string>

    constructor (groupDevices: (nat, string) -> Result<seq<string>, string>)
      ensures this.groupDevices == groupDevices && listed == []
    {
      this.groupDevices := groupDevices;
      listed := [];
    }

    method ReadDir(hostPath: string) returns (r: Result<seq<string>, string>)
      modifies this`listed
      ensures listed == old(listed) + [hostPath]
      ensures r == groupDevices(|old(listed)|, hostPath)
    {
      r := groupDevices(|listed|, hostPath);
      listed := listed + [hostPath];
    }
  }

  /** The index of the first entry name that is not a BDF, or `|names|` when all are. */
  function FirstMalformed(names: seq<string>): (k: nat)
    ensures k <= |names|
    ensures forall i :: 0 <= i < k ==> GetBdf(names[i]).Success?
    ensures k < |names| ==> GetBdf(names[k]).Failure?
  {
    if names == [] then 0
    else if GetBdf(names[0]).Failure? then 0
    else 1 + FirstMalformed(names[1..])
  }

  /** The first malformed entry is the one before which every name parses. */
  lemma FirstMalformedAt(names: seq<string>, k: nat)
    requires k <= |names|
    requires forall i :: 0 <= i < k ==> GetBdf(names[i]).Success?
    requires k < |names| ==> GetBdf(names[k]).Failure?
    ensures FirstMalformed(names) == k
  {
  }

  /**
   * The descriptors Attach builds for the first `n` entries of a group
   * listing: entry i gets the generated ID for `baseId + Itoa(i)` and the BDF
   * parsed from its name.
   */
  function Describe(baseId: string, names: seq<string>, makeNameId: (string, string) -> string, n: nat): seq<VfioDev>
    requires n <= |names|
    requires forall i :: 0 <= i < n ==> GetBdf(names[i]).Success?
  {
    if n == 0 then []
    else Describe(baseId, names, makeNameId, n - 1)
         + [VfioDev(makeNameId("vfio", baseId + Itoa(n - 1)), GetBdf(names[n - 1]).value)]
  }

  /** Describing one more entry appends its descriptor. */
  lemma DescribeNext(baseId: string, names: seq<string>, makeNameId: (string, string) -> string, n: nat)
    requires n < |names|
    requires forall i :: 0 <= i <= n ==> GetBdf(names[i]).Success?
    ensures Describe(baseId, names, makeNameId, n + 1)
            == Describe(baseId, names, makeNameId, n) + [VfioDev(makeNameId("vfio", baseId + Itoa(n)), GetBdf(names[n]).value)]
  {
  }

  /** One descriptor per entry, in listing order, each carrying its entry's BDF. */
  lemma {:induction false} DescribeEntries(baseId: string, names: seq<string>, makeNameId: (string, string) -> string, n: nat)
    requires n <= |names|
    requires forall i :: 0 <= i < n ==> GetBdf(names[i]).Success?
    ensures |Describe(baseId, names, makeNameId, n)| == n
    ensures forall i :: 0 <= i < n ==>
      Describe(baseId, names, makeNameId, n)[i] == VfioDev(makeNameId("vfio", baseId + Itoa(i)), GetBdf(names[i]).value)
  {
    if n > 0 {
      var prev := Describe(baseId, names, makeNameId, n - 1);
      DescribeEntries(baseId, names, makeNameId, n - 1);
      var last := VfioDev(makeNameId("vfio", baseId + Itoa(n - 1)), GetBdf(names[n - 1]).value);
      assert Describe(baseId, names, makeNameId, n) == prev + [last];
      forall i | 0 <= i < n
        ensures Describe(baseId, names, makeNameId, n)[i]
                == VfioDev(makeNameId("vfio", baseId + Itoa(i)), GetBdf(names[i]).value)
      {
        if i < n - 1 {
          assert Describe(baseId, names, makeNameId, n)[i] == prev[i];
        }
      }
    }
  }

  /** Every descriptor's BDF has exactly one colon, as "bus:slot.func" does. */
  lemma DescribedBdfs(baseId: string, names: seq<string>, makeNameId: (string, string) -> string, n: nat, i: nat)
    requires n <= |names|
    requires forall i :: 0 <= i < n ==> GetBdf(names[i]).Success?
    requires i < n
    ensures i < |Describe(baseId, names, makeNameId, n)|
    ensures Count(Describe(baseId, names, makeNameId, n)[i].bdf, ':') == 1
  {
    DescribeEntries(baseId, names, makeNameId, n);
    GetBdfSuffix(names[i]);
  }

  /** `VFIODevice`: a VFIO passthrough unit, the whole IOMMU group of `info.hostPath`. */
  class VfioDevice {
    const id: string
    const info: DeviceInfo
    var vfioDevs: seq<VfioDev>

    /** NewVFIODevice: copies the ID, keeps the very same DeviceInfo, starts with no members. */
    constructor (devInfo: DeviceInfo)
      ensures id == devInfo.id && info == devInfo && vfioDevs == []
      ensures IsAttached() == devInfo.hotplugged && DeviceId() == devInfo.id && GetDeviceInfo() == []
      ensures DeviceType() == DeviceVFIO
    {
      id := devInfo.id;
      info := devInfo;
      vfioDevs := [];
    }

    function IsAttached(): bool
      reads info
    {
      info.hotplugged
    }

    function DeviceType(): DeviceKind
    {
      DeviceVFIO
    }

    function DeviceId(): string
    {
      id
    }

    function GetDeviceInfo(): seq<VfioDev>
      reads this
    {
      vfioDevs
    }

    /**
     * Attach: unless already attached, list the IOMMU group, append one
     * descriptor per entry after the existing ones (stopping at the first
     * name that is not a BDF), then ask the receiver to hotplug the group;
     * only a successful hotplug sets the shared flag.
     */
    method Attach(receiver: Receiver, sysfs: IommuSysfs, makeNameId: (string, string) -> string)
      returns (err: Outcome<string>)
      modifies this`vfioDevs, info`hotplugged, receiver`requests, sysfs`listed
      // already attached: no listing, no request, nothing changes
      ensures old(info.hotplugged) ==>
        err.Pass? && info.hotplugged && vfioDevs == old(vfioDevs) &&
        receiver.requests == old(receiver.requests) && sysfs.listed == old(sysfs.listed)
      ensures !old(info.hotplugged) ==> sysfs.listed == old(sysfs.listed) + [info.hostPath]
      // the group cannot be listed: nothing appended, no request
      ensures !old(info.hotplugged) && sysfs.groupDevices(|old(sysfs.listed)|, info.hostPath).Failure? ==>
        err == Fail(sysfs.groupDevices(|old(sysfs.listed)|, info.hostPath).error) && !info.hotplugged &&
        vfioDevs == old(vfioDevs) && receiver.requests == old(receiver.requests)
      // the group is listed: the well-formed prefix of it is appended
      ensures !old(info.hotplugged) && sysfs.groupDevices(|old(sysfs.listed)|, info.hostPath).Success? ==>
        var names := sysfs.groupDevices(|old(sysfs.listed)|, info.hostPath).value;
        var k := FirstMalformed(names);
        vfioDevs == old(vfioDevs) + Describe(info.id, names, makeNameId, k) &&
        (k < |names| ==>
          err == Fail(BdfTokenError + names[k]) && !info.hotplugged &&
          receiver.requests == old(receiver.requests)) &&
        (k == |names| ==>
          receiver.requests == old(receiver.requests) + [HotplugAdd(this, DeviceVFIO)] &&
          err == receiver.answer(|old(receiver.requests)|) && info.hotplugged == err.Pass?)
    {
      if info.hotplugged {
        return Pass;
      }
      var listing := sysfs.ReadDir(info.hostPath);
      if listing.Failure? {
        return Fail(listing.error);
      }
      var parseErr := AppendGroupMembers(listing.value, makeNameId);
      if parseErr.Fail? {
        return parseErr;
      }
      err := receiver.HotplugAddDevice(this, DeviceVFIO);
      if err.Fail? {
        return;
      }
      info.hotplugged := true;
    }

    /**
     * The loop of Attach over the entries of a listed IOMMU group: one
     * descriptor per entry is appended, in listing order, until an entry name
     * is not a BDF, whose parse error is then returned.
     */
    method AppendGroupMembers(deviceFiles: seq<string>, makeNameId: (string, string) -> string)
      returns (err: Outcome<string>)
      modifies this`vfioDevs
      ensures var k := FirstMalformed(deviceFiles);
        vfioDevs == old(vfioDevs) + Describe(info.id, deviceFiles, makeNameId, k) &&
        err == if k < |deviceFiles| then Fail(BdfTokenError + deviceFiles[k]) else Pass
    {
      ghost var before := vfioDevs;
      for i := 0 to |deviceFiles|
        invariant forall j :: 0 <= j < i ==> GetBdf(deviceFiles[j]).Success?
        invariant vfioDevs == before + Describe(info.id, deviceFiles, makeNameId, i)
      {
        var deviceBdf := GetBdf(deviceFiles[i]);
        if deviceBdf.Failure? {
          FirstMalformedAt(deviceFiles, i);
          return Fail(deviceBdf.error);
        }
        DescribeNext(info.id, deviceFiles, makeNameId, i);
        vfioDevs := vfioDevs + [VfioDev(makeNameId("vfio", info.id + Itoa(i)), deviceBdf.value)];
      }
      FirstMalformedAt(deviceFiles, |deviceFiles|);
      err := Pass;
    }

    /**
     * Detach: unless already detached, ask the receiver to remove the group;
     * only a successful removal clears the shared flag. The member list is
     * left as it is.
     */
    method Detach(receiver: Receiver) returns (err: Outcome<string>)
      modifies info`hotplugged, receiver`requests
      ensures vfioDevs == old(vfioDevs)
      ensures !old(info.hotplugged) ==>
        err.Pass? && !info.hotplugged && receiver.requests == old(receiver.requests)
      ensures old(info.hotplugged) ==>
        receiver.requests == old(receiver.requests) + [HotplugRemove(this, DeviceVFIO)] &&
        err == receiver.answer(|old(receiver.requests)|) && info.hotplugged == err.Fail?
    {
      if !info.hotplugged {
        return Pass;
      }
      err := receiver.HotplugRemoveDevice(this, DeviceVFIO);
      if err.Fail? {
        return;
      }
      info.hotplugged := false;
    }
  }

  /**
   * Attach, Detach, Attach on a detached device whose group lists cleanly,
   * the same way both times, and whose receiver accepts every request: the
   * second Attach appends the same descriptors again, so the member list
   * holds the group twice.
   */
  method ReattachAppendsAgain(device: VfioDevice, receiver: Receiver, sysfs: IommuSysfs, makeNameId: (string, string) -> string)
    requires !device.info.hotplugged
    requires sysfs.groupDevices(|sysfs.listed|, device.info.hostPath).Success?
    requires sysfs.groupDevices(|sysfs.listed| + 1, device.info.hostPath)
             == sysfs.groupDevices(|sysfs.listed|, device.info.hostPath)
    requires FirstMalformed(sysfs.groupDevices(|sysfs.listed|, device.info.hostPath).value)
             == |sysfs.groupDevices(|sysfs.listed|, device.info.hostPath).value|
    requires forall k :: |receiver.requests| <= k < |receiver.requests| + 3 ==> receiver.answer(k).Pass?
    modifies device`vfioDevs, device.info`hotplugged, receiver`requests, sysfs`listed
    ensures device.IsAttached()
    ensures var names := sysfs.groupDevices(|old(sysfs.listed)|, device.info.hostPath).value;
      var group := Describe(device.info.id, names, makeNameId, |names|);
      device.GetDeviceInfo() == old(device.GetDeviceInfo()) + group + group &&
      |device.GetDeviceInfo()| == |old(device.GetDeviceInfo())| + 2 * |names|
  {
    ghost var names := sysfs.groupDevices(|sysfs.listed|, device.info.hostPath).value;
    ghost var group := Describe(device.info.id, names, makeNameId, |names|);
    ghost var devs := device.vfioDevs;
    var err := device.Attach(receiver, sysfs, makeNameId);
    assert err.Pass? && device.info.hotplugged && device.vfioDevs == devs + group;
    err := device.Detach(receiver);
    assert err.Pass? && !device.info.hotplugged && device.vfioDevs == devs + group;
    err := device.Attach(receiver, sysfs, makeNameId);
    assert device.vfioDevs == devs + group + group;
    DescribeEntries(device.info.id, names, makeNameId, |names|);
  }
}
