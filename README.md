# VFIO passthrough driver: a verified model

This project models `virtcontainers/device/drivers/vfio.go` from the Kata
Containers runtime. That file passes a host IOMMU group through to a virtual
machine using the kernel's VFIO framework. It has three parts:

- **BDF parsing** (`getBDF`). A sysfs entry name such as `0000:00:1c.0` is
  turned into its bus:slot.func address `00:1c.0`. The name is accepted
  exactly when it has two colons, and the result is everything after the
  first colon. Hex digits and the `.` are not checked.
- **Driver rebinding** (`BindDevicetoVFIO`, `BindDevicetoHost`). Each is three
  sysfs writes in a fixed order, with paths built from the `%s` templates at
  the top of the file. A failure of either of the first two writes stops the
  workflow and is returned. The last write's failure is ignored when binding to
  vfio-pci and returned when binding back to the host driver.
- **The `VFIODevice` entity**. Attach and Detach are driven by the
  `Hotplugged` flag of a `DeviceInfo` object that the caller shares with the
  device. Attach lists the IOMMU group and appends one `VFIODev` per entry to
  the device's member list. It then asks the hotplug receiver to add the
  group, and sets the flag only if that succeeds. Detach asks the receiver to
  remove the group and clears the flag only if that succeeds.

Modules:

- `Wrappers` (`wrappers.dfy`): `Outcome` stands for a Go `error` return and
  `Result` for a `(value, error)` pair.
- `Strings` (`strings.dfy`): Go's `strings.Split` and `strings.SplitN`
  (used by `getBDF`) and `strconv.Itoa` (used by Attach), for a
  one-character separator. A `Join` function, which the code does not call,
  states how the pieces of a split fit back together.
- `Drivers` (`vfio.dfy`): everything in `vfio.go`.

The kernel and the hypervisor are replaced by oracles:

- A sysfs write's result is `outcome(k)`, where k is the position of the
  write within one workflow call. Each workflow returns the list of
  `(path, data)` writes it attempted.
- The k-th IOMMU group listing comes from `IommuSysfs.groupDevices(k, hostPath)`,
  so a group may list differently each time. `IommuSysfs.listed` records
  every listing.
- The hotplug receiver (`Receiver`) records every add and remove request and
  answers request k with `answer(k)`.
- `utils.MakeNameID("vfio", base, maxDevIDSize)` is the parameter
  `makeNameId`, with the length bound already applied. Nothing is assumed
  about the IDs it generates.

The `DeviceInfo` is a class that the device holds by reference. So Attach and
Detach write `info.hotplugged` on the caller's own object, and their
`modifies` clauses name that field.

Two consequences of the code are worth stating up front:

- **Attach appends.** Attach appends to the existing member list
  (`vfio.go:73`) and nothing clears it; Detach leaves it alone. So a failed
  Attach leaves its entries in the list, whether it failed on a bad name or
  because the receiver refused the add, and an Attach, Detach, Attach cycle
  lists the group twice (`ReattachAppendsAgain`). "One entry per member"
  holds after a successful Attach only when the list was empty before it.
- **Six writes.** Binding a device to vfio-pci and back issues six sysfs
  writes, three per workflow (`RebindRoundTrip`).

## Model

| member | source | states |
|---|---|---|
| `Strings.Split` | virtcontainers/device/drivers/vfio.go:134 | `strings.Split` on `:` gives one more piece than the name has colons, so "three tokens" means "exactly two colons" |
| `Strings.SplitPieces` | virtcontainers/device/drivers/vfio.go:134 | no piece of a split contains the separator |
| `Strings.JoinSplit` | virtcontainers/device/drivers/vfio.go:134 | joining the pieces with the separator gives back the original string |
| `Strings.SplitN` | virtcontainers/device/drivers/vfio.go:140 | `strings.SplitN(s, sep, n)` gives at most n pieces: n when s has at least n-1 separators, otherwise one more than the separator count; n = 0 gives none |
| `Strings.SplitNPieces` | virtcontainers/device/drivers/vfio.go:140 | the pieces of `SplitN` join back to the string, and every piece but the last is free of the separator |
| `Strings.Itoa` | virtcontainers/device/drivers/vfio.go:70 | `strconv.Itoa` of an index is a non-empty string of decimal digits |
| `Strings.ItoaInjective` | virtcontainers/device/drivers/vfio.go:70 | different indices have different decimal forms, so the group members' ID bases `DeviceInfo.ID + Itoa(i)` are pairwise different |
| `Drivers.GetBdf` | virtcontainers/device/drivers/vfio.go:133-142 | parsing succeeds iff the name has exactly two colons; otherwise the error is the "Incorrect number of tokens…" message followed by the name |
| `Drivers.GetBdfSuffix` | virtcontainers/device/drivers/vfio.go:140-141 | on success, name == domain + ":" + result with a colon-free domain, so the result is what follows the first colon, and it has exactly one colon |
| `Drivers.GetBdfOfName` | virtcontainers/device/drivers/vfio.go:133-142 | converse: a colon-free domain, a colon and a one-colon BDF parse back to that BDF |
| `Strings.SeparatorAfter` | virtcontainers/device/drivers/vfio.go:134-136 | a separator placed after a separator-free prefix adds exactly one to the separator count; for `:` this is the count `getBDF` checks |
| `Drivers.GetBdfDocumentedExample` | virtcontainers/device/drivers/vfio.go:64-65 | the entry name given as the example in the enumeration loop, `0000:00:1c.0` yields `00:1c.0` |
| `Drivers.GetBdfChecksOnlyColons` | virtcontainers/device/drivers/vfio.go:134-141 | `a:b:c` is accepted, giving `b:c`: neither hex digits nor the `.` are checked |
| `Drivers.GetBdfRejectsMissingDomain` | virtcontainers/device/drivers/vfio.go:136-138 | `0000:1c.0` (one colon) and the empty name are rejected, with the name in the error |
| `Drivers.GetBdfRejectsExtraColon` | virtcontainers/device/drivers/vfio.go:136-138 | a name with three colons is rejected |
| `Drivers.SprintfInjective` | virtcontainers/device/drivers/vfio.go:24-26 | a one-`%s` path template gives different paths for different arguments |
| `Drivers.UnbindPathIsNoDriverPath` | virtcontainers/device/drivers/vfio.go:24-29 | the per-device unbind path is never a bind, new_id or remove_id file of a driver |
| `Drivers.BindPathIsNoIdPath` | virtcontainers/device/drivers/vfio.go:26-28 | no driver's bind path is vfio-pci's new_id or remove_id file |
| `Drivers.FirstFailure` | virtcontainers/device/drivers/vfio.go:155-167 | the index of the first failing write among the first n (or n): every earlier write succeeded, and the write at that index failed |
| `Drivers.Run` | virtcontainers/device/drivers/vfio.go:146-209 | reference semantics of a workflow. The attempted writes are a prefix of the plan, in plan order. The result is an error iff one of the fatal writes failed. That error is the last attempted write's own, and every earlier write succeeded. On success the whole plan was attempted |
| `Drivers.BindDeviceToVfio` | virtcontainers/device/drivers/vfio.go:146-181 | follows `Run` on the plan [unbind(bdf), vfio new_id ← vendor:device, vfio-pci bind ← bdf] with two fatal writes. So it returns success with all three writes attempted whenever the first two succeed, whatever the third does. Paths and data do not depend on `hostDriver` |
| `Drivers.BindDeviceToHost` | virtcontainers/device/drivers/vfio.go:184-209 | follows `Run` on the plan [unbind(bdf), vfio remove_id ← vendor:device, hostDriver bind ← bdf] with all three writes fatal. So when the first two succeed, the result is the third write's own outcome |
| `Drivers.RebindPathsOverlap` | virtcontainers/device/drivers/vfio.go:146-209 | the two workflows write the same path only at the device's unbind file, plus the bind file when the host driver is vfio-pci itself |
| `Drivers.RebindRoundTrip` | virtcontainers/device/drivers/vfio.go:146-209 | binding to vfio-pci and back on a kernel where all writes succeed issues exactly six writes: the vfio plan followed by the host plan |
| `Drivers.FirstMalformed` | virtcontainers/device/drivers/vfio.go:63-68 | the position where the enumeration loop stops: every earlier entry name parses, and the name there does not |
| `Drivers.DescribeEntries` | virtcontainers/device/drivers/vfio.go:62-74 | the descriptors for the first n entries are n in number, in listing order. Descriptor i has ID `makeNameId("vfio", DeviceInfo.ID + Itoa(i))` and the BDF parsed from entry i |
| `Drivers.DescribedBdfs` | virtcontainers/device/drivers/vfio.go:65-71 | every descriptor's BDF has exactly one colon |
| `Drivers.VfioDevice.constructor` | virtcontainers/device/drivers/vfio.go:40-45 | NewVFIODevice copies the ID and keeps the very same DeviceInfo object. The member list starts empty. `IsAttached()` is the incoming `Hotplugged` flag, `DeviceType()` is VFIO and `DeviceId()` is the copied ID |
| `Drivers.VfioDevice.Attach` | virtcontainers/device/drivers/vfio.go:49-88 | Already attached: success, with no listing, no receiver request and nothing changed. Otherwise the group is listed once. A listing error is returned with nothing appended and no request. Otherwise the descriptors of the entries up to the first malformed name are appended after the old list. A malformed name returns its parse error with no request. Otherwise one add request is made and its answer is returned. The flag is set iff that answer is success, and every failure leaves it false |
| `Drivers.VfioDevice.AppendGroupMembers` | virtcontainers/device/drivers/vfio.go:62-74 | the enumeration loop appends the descriptors of the entries before the first malformed name after the existing list, and returns that name's parse error if there is one |
| `Drivers.VfioDevice.Detach` | virtcontainers/device/drivers/vfio.go:92-109 | Already detached: success, with no request. Otherwise one remove request is made and its answer is returned. The flag is cleared iff the answer is success. The member list never changes |
| `Drivers.ReattachAppendsAgain` | virtcontainers/device/drivers/vfio.go:49-109 | Attach, Detach, Attach on a group that lists cleanly and the same both times, with a willing receiver, leaves the device attached, with the group's descriptors appended twice after the old list |

The accessors `IsAttached`, `DeviceType`, `DeviceId` and `GetDeviceInfo`
(`vfio.go:112-129`) are plain functions of the device's state. The
constructor's contract and `ReattachAppendsAgain` are stated through them;
Attach and Detach state theirs over the fields they read, `info.hotplugged`
and `vfioDevs`.
`GetDeviceInfo` returns the typed member list, not an untyped value.

## Left out

- Logging (`deviceLogger()`, `api.DeviceLogger()`, the logrus fields) is not modelled. It has no effect on results or state.
- The real file system is replaced by oracles. `ioutil.ReadDir` becomes `IommuSysfs.groupDevices` and `utils.WriteToFile` becomes `outcome`. Neither helper is part of this model.
- The listed path is not modelled. `filepath.Base`, `filepath.Join` and `config.SysIOMMUPath` turn `HostPath` into that path, and `config.SysIOMMUPath` is not part of this model. The listing is a function of the listing's position and `HostPath` directly, so two host paths with the same last segment may list differently, which the real directory would not.
- The IDs that `utils.MakeNameID` generates, and `maxDevIDSize`, are not modelled. `makeNameId` is a parameter, and nothing about its results is assumed.
- The hotplug receiver's internals (`HotplugAddDevice`, `HotplugRemoveDevice`) are not modelled, only their outcomes. In particular the model does not capture a receiver that reads or changes the device during the call.
- Concurrency is not modelled. The code has no locking, and callers serialize Attach and Detach.
- `config.VFIODev` values are stored in the list, not pointers to them. Nothing in the file changes a `VFIODev` after creating it, so no aliasing is lost.
- `VFIODevice.ID` and `VFIODevice.DeviceInfo` are `const`. They are exported fields in Go, but this file never reassigns them.
- Only the `ID`, `HostPath` and `Hotplugged` fields of `DeviceInfo` are modelled. `virtcontainers/device/config` is not part of this model.
- The data of a write is the string itself, not its `[]byte` conversion. The two are the same bytes.
- Error values are opaque strings, passed through unchanged. The `fmt.Errorf` message of `getBDF` is modelled exactly.
- `Strings.SplitN` does not model a negative `n`, which means "no limit" in Go. The code only calls `SplitN` with `n == 2`.
- `DeviceKind` has only the `DeviceVFIO` tag that this driver uses. The other device kinds live in `virtcontainers/device/config`, which is not part of this model.
