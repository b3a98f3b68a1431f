# A verified model of the HPE 3PAR volume plug-in for Docker

Many Docker nodes run this plug-in. They share metadata in etcd and volumes, exports and file-persona
objects on a 3PAR array, and they coordinate through etcd locks. This project models that coordination and
proves what it keeps, for any number of nodes and any interleaving of the locked steps, failures included.
etcd is a map, the array is a set of maps, and a locked operation is one step, or several where other
threads can come in between. Classes carry the fields that the Python objects and records carry, their
methods change them as the Python methods do, and each method is proved against a specification function
or relation. The theorems about runs are then proved about those specifications.

| file | what it models |
|---|---|
| `Names.dfy` | the base64 names between volume ids and 3PAR object names |
| `Vluns.dfy` | exports of volumes to hosts, forced and ordinary removal |
| `Fencing.dfy`, `FencingRuns.dfy` | single-owner mounts, takeover, late unmounts; one step, then whole runs |
| `Rollback.dfy` | undo lists, creation and cloning of volumes with volume sets |
| `Snapshots.dfy`, `SnapshotRequests.dfy` | snapshot records against their parents' lists, with clones made beside them; what each request has done when it ends |
| `SnapshotLocks.dfy` | which snapshot, clone and removal requests can wait for each other for ever |
| `BackendMetadata.dfy` | the name counter, IP lists and default FPGs of a backend |
| `IpClaims.dfy` | claiming an IP, with all interleavings, and FPGs that others remove |
| `ShareCreation.dfy` | the search for an FPG, the fallback to a new one, undo, deletion |
| `Capacity.dfy` | hard quotas against FPG capacity |
| `ShareMounts.dfy` | which nodes have a share mounted |
| `LockOrder.dfy` | the nested locks of share threads |
| `Privsep.dfy` | the request/reply multiplexer of oslo privsep |
| `Ipv6.dfy` | the IPv6 printer and parser in the patched `compat.py` |
| `Util.dfy` | options, Python list removal, string search |

## Where the code does not keep its promise

Where there is an exact condition it is proved in both directions; for a thread that waits for ever and for a bad run,
a run that reaches it is given.

- A mount that fails while making the filesystem or the mount directory, or while removing lost+found, leaves the
  volume exported to a node that does not own it: no rollback follows these calls. So does one that fails while the
  exports are made, after the first of them: they are undone only once all are there
  (`FencingRuns.MountExportSafe`).
- After a reboot, when the device cannot be remounted as it was, the new mount id is not recorded
  (`FencingRuns.MountRecordsId`).
- An owner's last unmount whose device clean-up raises leaves a path record, and any exports, on a free volume
  (`FencingRuns.StepPathsMatch`, `FencingRuns.UnmountExportSafe`); another unmount on that node makes it good
  (`FencingRuns.RetriedUnmount`).
- A failed volume creation leaves the flash-cache policy changed on a volume set that existed before
  (`Rollback.FailedCreationRestores`).
- `CreateFpgCmd.execute` failing after the FPG is on the array leaves the FPG behind; every other failed share creation
  is undone completely (`ShareCreation.FallbackRestores`, `ShareCreation.FileManager.CreateShare`).
- Undoing a default FPG drops all CPGs' default lists when this CPG's list becomes empty
  (`BackendMetadata.UndoDefaultRestores`). Deleting an FPG that is not a default one raises, and so keeps its IP
  in use, when other CPGs have default FPGs and this one has none (`BackendMetadata.ReleaseRestores`,
  `ShareCreation.DeleteUndoesCreate`).
- Undoing an IP claim takes away another holder's entry in the in-use list when that list is stale
  (`IpClaims.UndoTouchesInUse`).
- Two commands can hold one IP address. A command that fails after marking its address gives up the CPG's lock first
  and undoes its claim later. If others put a share on its FPG in between and remove it, the FPG and its VFS go with
  it, a second command claims the address, the late undo unlocks it, and a third claims it too, or the second cannot
  mark it (`IpClaims.TwoHoldersReachable`, `IpClaims.HarmFailsMark`). Nothing else breaks uniqueness: a step keeps the
  invariant if and only if it is not such a removal (`IpClaims.StepKeepsInv`), and every such removal can end so
  (`IpClaims.HarmGivesTwoHolders`).
- In the same window another creation can place its share on the new FPG. The undo then deletes the FPG under it, if
  and only if a share or quota of another creation is on it (`ShareCreation.UndoStrandsOthers`).
- A capacity check does not count what other threads have settled on the FPG and not yet written. A run has room for
  all shares settled on, at every point, if and only if each of them fits beside the others when it is settled
  (`Capacity.RunRoom`), and without room the quotas written next exceed the capacity (`Capacity.RoomIsExact`). The CPG
  locks see to that as long as no FPG is made under a checked name and every check is of an FPG of the locked CPG
  (`Capacity.NeverOvercommitted`). Deleting an FPG and making it again under the same name for another CPG breaks
  either: after a creation has checked it (`Capacity.ReuseOvercommits`), or before the first CPG's entry for it has
  left etcd, because default FPGs and FPGs with metadata are checked without comparing CPGs
  (`Capacity.StaleListingOvercommits`). Names that nobody has checked and that etcd lists for no other CPG rule out
  both (`Capacity.FreshNamesSuffice`); a generated name can be one that a user has given to an FPG before.
- A share named like its backend waits for a lock that its own thread holds: `EtcdLock` does not pass on its root
  (`LockOrder.CreateAlone`).
- Volume requests deadlock if and only if they form a ring: each holds one lock and waits for the next one's. A new
  snapshot holds its own name's and waits for its parent's, the removal of a snapshot likewise, a clone holds its
  source's and waits for its own (`SnapshotLocks.DeadlockIsRing`, `SnapshotLocks.RingNeedsCycle`). One request for
  a snapshot of itself is the shortest; a snapshot B of A and a clone B of A is another
  (`SnapshotLocks.SnapshotAgainstClone`), and a clone B of A against the removal of a snapshot B of A a third
  (`SnapshotLocks.RemovalAgainstClone`). Every fitting cycle gets there from any state in which its requests wait for
  free first locks (`SnapshotLocks.RingFollows`). Names that can be ranked, with snapshots below their parents and
  volumes below their clones, rule deadlocks out (`SnapshotLocks.RankedProgress`).
- A clone is saved under its name although a record of that name has appeared since the request was made
  (`Snapshots.CloneDoubles`); names are unique if and only if this does not happen (`Snapshots.UniqueNames`).
- A privsep call that registers after the reader has seen end of file, and whose request still goes out, never gets
  a result (`Privsep.LateCallNeverReturns`, reached by `Privsep.LateCallReachable`).
- Volume names whose body contains `dcv-` cannot be decoded (`Names.NameRoundTrip`, `Names.UndecodableNames`).
- The IPv6 printer can elide a single word at an end, which the parser rejects (`Ipv6.PrintThenParse`). Because of a
  reset variable it elides a longest run if and only if no run is longer than all that follow it with one of these
  ending before the last word (`Ipv6.LongestUnlessLost`, `Ipv6.LongestRunNotChosen`).

## Assumptions

Locks exclude each other; etcd writes succeed unless a parameter says that they fail; one call to the array
either happens or does not, and making several exports is several calls; terminating a connection and the undo calls
on the array succeed. Every array has one backend section, whose name is part of its CPG locks' names, and no volume
request uses a name that is also the name of a share's, backend's, CPG's or FPG's lock. A node's name on the array is its node id, and a node keeps its
IP address. The array hands out fresh ids, keeps a template for every active VLUN, and gives a new FPG at least the
capacity asked for. What the operating system, the array or etcd answers comes in as a parameter of the
operation, so that every theorem holds for all answers.

## Model

| member | source | states |
|---|---|---|
| Names.DecodeEncode | hpedockerplugin/hpe/utils.py:66-87 | decoding the base64 of any byte string gives the bytes back |
| Names.TripleValue | hpedockerplugin/hpe/utils.py:66-76 | four letters and the three bytes they stand for are one big-endian number |
| Names.EncodedLength | hpedockerplugin/hpe/utils.py:66-76 | n bytes take ceil(8n/6) letters, so every UUID takes 22 |
| Names.DecodedLength | hpedockerplugin/hpe/utils.py:79-87 | a text decodes unless one letter is left over, to floor(6n/8) bytes |
| Names.RemoveAllExact | hpedockerplugin/hpe/utils.py:90-97 | replacing a pattern by nothing leaves a text alone exactly when the pattern does not occur in it |
| Names.ParseCanonicalId | hpedockerplugin/hpe/utils.py:66-87 | the printed form of a UUID names exactly that UUID |
| Names.CanonicalIdDashes | hpedockerplugin/hpe/utils.py:79-87 | a printed UUID has its dashes after 8, 12, 16 and 20 digits and nowhere else |
| Names.DecodeBody | hpedockerplugin/hpe/utils.py:66-87 | undoing the two letter substitutions and decoding gives the UUID back |
| Names.EncodeNameInjective | hpedockerplugin/hpe/utils.py:66-76 | different UUIDs have different encoded names |
| Names.EncodedLetters | hpedockerplugin/hpe/utils.py:66-76 | each letter is the RFC 4648 one, but for a dot and a dash in place of + and / |
| Names.Prefixes | hpedockerplugin/hpe/utils.py:100-149 | prefixes of volumes, snapshots and volume sets; set names are injective and never volume or snapshot names |
| Names.NamesDistinct | hpedockerplugin/hpe/utils.py:100-143 | names have 26 characters, are injective, and a volume's is never a snapshot's |
| Names.SubstringIsEquality | hpedockerplugin/hpe/hpe_3par_common.py:571-577 | between plug-in names the substring test of delete_vlun is equality |
| Names.NameRoundTrip | hpedockerplugin/hpe/utils.py:79-116 | an id comes back from its volume name if and only if the body does not contain dcv-, and otherwise decoding fails |
| Names.ShortBodyFails | hpedockerplugin/hpe/utils.py:79-97 | a body shortened by the deletion can never decode to a UUID |
| Names.UndecodableNames | hpedockerplugin/hpe/utils.py:79-116 | every UUID beginning 75cbff has an undecodable volume name |
| Ipv6.ChooseRun | patch_os_bricks/compat.py:169-185 | the scan picks the last zero run that ends inside, unless a trailing one is the only one or longer |
| Ipv6.InetNtop | patch_os_bricks/compat.py:162-193 | the printer elides the chosen run by editing the parts in place |
| Ipv6.SplitJoin | patch_os_bricks/compat.py:121-193 | splitting at colons undoes joining with colons |
| Ipv6.ParseJoined | patch_os_bricks/compat.py:117-156 | what the parser makes of any list of words and empty parts, by the number of empty parts |
| Ipv6.WordsExactly | patch_os_bricks/compat.py:155-156 | exactly eight hexadecimal numbers below 65536 make an address |
| Ipv6.ZoneIgnored | patch_os_bricks/compat.py:117-120 | one zone behind an address is ignored |
| Ipv6.BadZones | patch_os_bricks/compat.py:113-119 | an empty text, a zone alone and two zones are rejected |
| Ipv6.ElidedRoundTrip | patch_os_bricks/compat.py:117-156 | an elided run of fewer than eight words parses back, and a lone word at an end is rejected |
| Ipv6.RoundTrip | patch_os_bricks/compat.py:117-193 | for every address and whichever zero run is elided, parsing gives the words back, except for a lone word at an end |
| Ipv6.LossyIsLoneEnd | patch_os_bricks/compat.py:169-185 | the scan elides a lone end word exactly when the six inner words have no zero and an end word is zero |
| Ipv6.LongestUnlessLost | patch_os_bricks/compat.py:169-185 | for every address, a longest run is elided if and only if no run is longer than all that follow it with one of these ending before the last word |
| Ipv6.LongestRunNotChosen | patch_os_bricks/compat.py:177-182 | the reset of bestLen makes one zero win over three |
| Ipv6.PrintThenParse | patch_os_bricks/compat.py:117-193 | printing and parsing loses exactly those addresses and no others |
| Vluns.WithoutHosts | hpedockerplugin/hpe/hpe_3par_common.py:563-594 | taking a volume off some hosts leaves the others, and templates stay with their active VLUNs |
| Vluns.ForceRemovedClears | hpedockerplugin/hpe/hpe_3par_common.py:508-561 | two rounds of forced removal clear a volume if and only if it was on at most two hosts |
| Vluns.Array3Par.GetHostVluns | hpedockerplugin/hpe/hpe_3par_common.py:527-528 | the VLUNs of one host, each once |
| Vluns.Array3Par.RemoveTemplates | hpedockerplugin/hpe/hpe_3par_common.py:530-552 | the loop over a host's templates removes this volume's VLUNs on it and touches no others |
| Vluns.Array3Par.ForceRound | hpedockerplugin/hpe/hpe_3par_common.py:514-561 | one round takes the volume off one host that has it, or finds none |
| Vluns.Array3Par.ForceRemoveVolumeVlun | hpedockerplugin/hpe/hpe_3par_common.py:508-561 | the volume is off two of its hosts or all; nothing else is unexported; only hosts it was on are dropped |
| Vluns.Array3Par.DeleteVlun | hpedockerplugin/hpe/hpe_3par_common.py:563-633 | the volume is off the host unless another volume's name contains its name; other volumes and hosts stay |
| Fencing.PluginSubstring | hpedockerplugin/hpe/hpe_3par_common.py:571-577 | no plug-in name properly contains another one |
| Fencing.PluginExportsClear | hpedockerplugin/hpe/hpe_3par_common.py:571-577 | on an array of plug-in volumes the substring test never meets another volume |
| Fencing.VolumeManager.Rollback | hpedockerplugin/volume_manager.py:2020-2036 | undo in reverse takes at most this node's exports of the volume, and all of them once connected |
| Fencing.VolumeManager.AttachDevice | hpedockerplugin/volume_manager.py:1556-1698 | a failed attach is rolled back, or leaves its exports in the three stages that no rollback follows; one that fails while exporting leaves what it has made so far |
| Fencing.VolumeManager.SkipNode | hpedockerplugin/volume_manager.py:1472-1487 | the old paths of the other nodes, in order |
| Fencing.VolumeManager.RememberOldPath | hpedockerplugin/volume_manager.py:1458-1491 | the evicted owner's path replaces any earlier entry of that node |
| Fencing.VolumeManager.EvictOwner | hpedockerplugin/volume_manager.py:1452-1491 | forced removal, then the owner's path among the old ones; when the removal fails no record changes |
| Fencing.VolumeManager.UpdateMountIdList | hpedockerplugin/volume_manager.py:1241-1259 | the owner's list gains the id at its end unless it is there |
| Fencing.VolumeManager.MountByOwner | hpedockerplugin/volume_manager.py:1449-1554 | the owner's mount counts one more id, remounts after a reboot, or leaves the device to be attached again |
| Fencing.VolumeManager.AttachAndSave | hpedockerplugin/volume_manager.py:1556-1698 | ids and path are saved exactly when the device is attached |
| Fencing.VolumeManager.MountTakeover | hpedockerplugin/volume_manager.py:1452-1494 | eviction, then attaching, as one step on record and VLUNs |
| Fencing.VolumeManager.MountVolume | hpedockerplugin/volume_manager.py:1356-1698 | the record and VLUNs after a mount, branch by branch and for every failure, and when it succeeds |
| Fencing.VolumeManager.FindOldPath | hpedockerplugin/volume_manager.py:1798-1808 | the node's first entry among the old paths |
| Fencing.VolumeManager.ReleaseVolume | hpedockerplugin/volume_manager.py:1784-1880 | the record without the mount id or the old path, and whether and with which path clean-up goes on |
| Fencing.VolumeManager.UnmountVolume | hpedockerplugin/volume_manager.py:1768-1955 | the record and VLUNs after an unmount by owner, evicted node or anyone on a free volume, and when it succeeds |
| FencingRuns.EvictKeepsOrder | hpedockerplugin/volume_manager.py:1462-1491 | evicting keeps one old path per node, each with a real path record |
| FencingRuns.EvictEntries | hpedockerplugin/volume_manager.py:1462-1491 | evicting enters the owner with its path in place of its earlier entry and keeps every other node's |
| FencingRuns.TakeoverOldPaths | hpedockerplugin/volume_manager.py:1452-1491 | after a forced takeover, attached or not, the old paths are the former owner's and those of all other nodes |
| FencingRuns.OtherMountOldPaths | hpedockerplugin/volume_manager.py:1449-1554 | no other mount changes the old paths |
| FencingRuns.LateUnmountEntries | hpedockerplugin/volume_manager.py:1797-1820 | removing a node's old path keeps exactly the other nodes' |
| FencingRuns.MountKeepsWellFormed | hpedockerplugin/volume_manager.py:1356-1698 | node_mount_info keeps one node with a non-empty duplicate-free id list, whatever fails |
| FencingRuns.UnmountKeepsWellFormed | hpedockerplugin/volume_manager.py:1768-1955 | the same for every unmount |
| FencingRuns.StepKeepsWellFormed | hpedockerplugin/volume_manager.py:1356-1955 | the record invariant is kept for all volumes by every step |
| FencingRuns.StepRefines | hpedockerplugin/volume_manager.py:1356-1955 | every step refines the machine (owner, set of mount ids) |
| FencingRuns.MountRefines | hpedockerplugin/volume_manager.py:1356-1698 | takeover replaces owner and ids, a shared mount adds one id, a reboot keeps or resets the set, a failed mount changes neither |
| FencingRuns.UnmountRefines | hpedockerplugin/volume_manager.py:1830-1865 | an owner's unmount removes one id and frees the volume exactly on the last; a foreign one changes neither |
| FencingRuns.MountRecordsId | hpedockerplugin/volume_manager.py:1495-1554 | after a success the id is held, except exactly in the reboot case that falls through |
| FencingRuns.MountThenUnmount | hpedockerplugin/volume_manager.py:1241-1259 | a first or a further mount with a new id and its unmount give the record back |
| FencingRuns.MountReports | hpedockerplugin/volume_manager.py:1356-1698 | when a mount reports success, by holder and answers of the node |
| FencingRuns.MountRecordsPath | hpedockerplugin/volume_manager.py:1495-1698 | which path is recorded after every kind of mount |
| FencingRuns.StepPathsMatch | hpedockerplugin/volume_manager.py:1859-1949 | path_info stays present exactly while mounted, except after an owner's last unmount whose clean-up raises |
| FencingRuns.StepKeepsPluginExports | hpedockerplugin/hpe/hpe_3par_common.py:563-594 | only plug-in volumes get exported, so the substring test stays exact |
| FencingRuns.StepTouchesOneVolume | hpedockerplugin/volume_manager.py:1356-1955 | a step changes neither record nor VLUNs of any other volume |
| FencingRuns.MountExportSafe | hpedockerplugin/volume_manager.py:1452-1698 | only the owner's host has VLUNs after a mount, if and only if it does not fail on a non-owner in one of the three unguarded stages or while exporting, after making an export |
| FencingRuns.TakeoverExports | hpedockerplugin/volume_manager.py:1452-1494 | the same for a takeover, by the two forced rounds |
| FencingRuns.UnmountExportSafe | hpedockerplugin/volume_manager.py:1830-1949 | the same for an unmount, if and only if it is not an owner's last one cut short with exports left |
| FencingRuns.LateUnmountFrame | hpedockerplugin/volume_manager.py:1797-1829 | an evicted node's unmount drops only its own old path and leaves owner, path and VLUNs alone |
| FencingRuns.FreeUnmount | hpedockerplugin/volume_manager.py:1859-1949 | an unmount of a free volume with a path record takes the record and the node's exports away, or changes nothing |
| FencingRuns.RetriedUnmount | hpedockerplugin/volume_manager.py:1830-1949 | after a last unmount that was cut short, another one on the node leaves no path record and no exports |
| FencingRuns.StepKeepsFinds | hpedockerplugin/volume_manager.py:1356-1955 | every step but its own unmount and its own mount as owner keeps the path that an evicted node finds |
| FencingRuns.EvictedPathKept | hpedockerplugin/volume_manager.py:1452-1820 | over any run, an evicted node that has not taken the volume back or unmounted finds the path it had, and its late unmount cleans up that path |
| FencingRuns.RunRefines | hpedockerplugin/volume_manager.py:1356-1955 | along every run each volume's record follows the abstract machine |
| FencingRuns.StepKeepsSecure | hpedockerplugin/volume_manager.py:1356-1955 | a fault-free step keeps export safety and path records for all volumes |
| FencingRuns.RunSecure | hpedockerplugin/volume_manager.py:1356-1955 | along every fault-free run, only owners' hosts have VLUNs and paths match mounts |
| FencingRuns.RunNamesClear | hpedockerplugin/hpe/hpe_3par_common.py:563-594 | along every run terminating a connection works on exactly the volume's own VLUNs |
| Rollback.LifoRestores | hpedockerplugin/volume_manager.py:2020-2036 | a list of left inverses, run in reverse, restores the first state |
| Rollback.UndoPush | hpedockerplugin/volume_manager.py:2020-2036 | undoing a longer list undoes its last step first |
| Rollback.VolumeCreator.Undo | hpedockerplugin/volume_manager.py:2020-2036 | the reverse loop computes the undo of the whole list |
| Rollback.VolumeCreator.CreateOwnSet | hpedockerplugin/volume_manager.py:2002-2008 | makes an own set and its undo step, or neither |
| Rollback.VolumeCreator.ApplyVolumeSpecs | hpedockerplugin/volume_manager.py:1974-2018 | wherever it stops, its undo list leads back to the first array, but for the policy of an existing set |
| Rollback.VolumeCreator.CreateVolume | hpedockerplugin/volume_manager.py:200-270 | succeeds exactly when no step is refused; then volume and membership are added and nothing else, and otherwise no record is left |
| Rollback.OwnSetUndone | hpedockerplugin/volume_manager.py:2002-2008 | undoing volume and own set restores the array |
| Rollback.JoinUndone | hpedockerplugin/volume_manager.py:1992-2000 | leaving the set undoes joining it |
| Rollback.PolicyUndone | hpedockerplugin/volume_manager.py:1974-1990 | a policy goes away with an own set and stays on an older one |
| Rollback.FailedCreationRestores | hpedockerplugin/volume_manager.py:233-270 | a failure restores the array if and only if it had not changed an existing set's policy, which is then the only change |
| Rollback.SucceedsExactly | hpedockerplugin/volume_manager.py:200-270 | a creation succeeds if and only if none of the steps it goes through fails, its names are new and the named set exists |
| Rollback.DeleteKeepsOk | hpedockerplugin/hpe/hpe_3par_common.py:941-952 | deleting a volume that is in a set takes it out of the set |
| Snapshots.CountDrop | hpedockerplugin/volume_manager.py:2038-2045 | deleting by name removes one entry of that name and no other |
| Snapshots.StepKeepsInv | hpedockerplugin/volume_manager.py:514-907 | every interleaved step of volumes, snapshots, clones and removals keeps records and listings consistent |
| Snapshots.UniqueNames | hpedockerplugin/volume_manager.py:870-907 | in every run names are unique if and only if no clone was saved under a name that had a record |
| Snapshots.CloneDoubles | hpedockerplugin/volume_manager.py:870-907 | from any records, a run in which a volume and a clone get one name |
| Snapshots.ForestConsistent | hpedockerplugin/volume_manager.py:584-868 | with unique names, whenever a name's lock is free, a snapshot is listed once, with its id, by an existing parent only; anything else is not listed |
| Snapshots.RemovalFindsEntry | hpedockerplugin/volume_manager.py:821-868 | with unique names, a removal always finds exactly one entry in an existing parent |
| Snapshots.DeletedVolumeHasNoSnapshots | hpedockerplugin/volume_manager.py:766-818 | with unique names, when a volume is deleted, a snapshot that still names it as its parent is unlisted and itself about to be deleted |
| Snapshots.Catalog.GetSnapshotByName | hpedockerplugin/volume_manager.py:2038-2045 | the first entry of that name, or none exists |
| Snapshots.Catalog.RemoveSnapshot | hpedockerplugin/volume_manager.py:820-868 | takes the first entry out of the parent's list, if both exist |
| Snapshots.Catalog.CreateSnapshot | hpedockerplugin/volume_manager.py:584-764 | adds record and entry with one id, or changes nothing |
| Snapshots.Catalog.CloneVolume | hpedockerplugin/volume_manager.py:514-575 | refuses a missing source or a snapshot, but not a clone's name that is taken, which it doubles |
| Snapshots.Catalog.RemoveVolume | hpedockerplugin/volume_manager.py:766-818 | refuses a volume with snapshots; unlists a snapshot with its record |
| SnapshotRequests.CreateVolumeAlone | hpedockerplugin/volume_manager.py:200-270 | step by step, a new volume is there, or nothing has changed |
| SnapshotRequests.CreateSnapshotAlone | hpedockerplugin/volume_manager.py:584-764 | record and entry are there with one id, or nothing has changed, for every answer of array and etcd |
| SnapshotRequests.CloneVolumeAlone | hpedockerplugin/volume_manager.py:514-907 | the clone is there, beside any record of that name, or nothing has changed |
| SnapshotRequests.RemoveVolumeAlone | hpedockerplugin/volume_manager.py:766-868 | the record is gone, and a snapshot's entry with it, or nothing has changed |
| SnapshotRequests.RequestAlone | hpedockerplugin/hpe_storage_api.py:243-247 | every request that nobody gets in the way of ends, gives its locks back, and has done all of its work or nothing |
| SnapshotLocks.SelfWaits | hpedockerplugin/volume_manager.py:584-604 | a request waits for a lock of its own if and only if it makes a snapshot or a clone of a name under that name |
| SnapshotLocks.DeadlockIsRing | hpedockerplugin/volume_manager.py:514-907 | in every reachable state there is a deadlock if and only if requests that hold a lock form a ring |
| SnapshotLocks.DeadlockLasts | hpedockerplugin/volume_manager.py:514-907 | no step of another request resolves a deadlock |
| SnapshotLocks.Progress | hpedockerplugin/volume_manager.py:514-907 | without a ring some request can go on while one is unfinished |
| SnapshotLocks.RingNeedsCycle | hpedockerplugin/volume_manager.py:514-907 | a ring takes a cycle of requests: a missing snapshot of the next name, a clone of a volume under the next name, or the removal of a snapshot of the next name |
| SnapshotLocks.RankedProgress | hpedockerplugin/volume_manager.py:514-907 | no deadlock if names can be ranked with requested and existing snapshots below their parents and volumes below requested clones |
| SnapshotLocks.RingFollows | hpedockerplugin/volume_manager.py:514-907 | any run whose requests form a fitting cycle and wait for free first locks can go on to a deadlock of them |
| SnapshotLocks.RingReachable | hpedockerplugin/hpe_storage_api.py:243-247 | from any records, every fitting cycle in which no clone's name is taken has a run of just these requests that ends in a deadlock |
| SnapshotLocks.SnapshotAgainstClone | hpedockerplugin/volume_manager.py:514-604 | a snapshot and a clone of one volume, asked for under one new name, can deadlock |
| SnapshotLocks.RemovalAgainstClone | hpedockerplugin/volume_manager.py:766-907 | a clone can deadlock with the removal of a snapshot that has got the clone's name since it was asked for |
| BackendMetadata.DecimalInjective | hpedockerplugin/cmd/cmd_generate_fpg_vfs_names.py:22-27 | different numbers print differently |
| BackendMetadata.DecimalValue | hpedockerplugin/cmd/cmd_generate_fpg_vfs_names.py:22-27 | numbers print in decimal digits without leading zeros |
| BackendMetadata.FirstNames | hpedockerplugin/cmd/cmd_generate_fpg_vfs_names.py:19-52 | the first names carry 0, or 1 when other metadata was there before |
| BackendMetadata.FpgNameInjective | hpedockerplugin/cmd/cmd_generate_fpg_vfs_names.py:26-27 | different numbers give different FPG names |
| BackendMetadata.BackendStore.GenerateNames | hpedockerplugin/cmd/cmd_generate_fpg_vfs_names.py:19-52 | the names carry the next number, which is used up |
| BackendMetadata.BackendStore.ClaimIp | hpedockerplugin/cmd/cmd_claimavailableip.py:41-75 | an address of the first pool with one that is neither on the array nor locked, locked on return; none exactly when all are taken |
| BackendMetadata.BackendStore.MarkIpInUse | hpedockerplugin/cmd/cmd_claimavailableip.py:86-105 | moves the address between the lists, or fails and changes nothing |
| BackendMetadata.BackendStore.UnclaimIp | hpedockerplugin/cmd/cmd_claimavailableip.py:26-39 | takes one entry of the address off each list |
| BackendMetadata.BackendStore.AddToDefaultFpg | hpedockerplugin/cmd/cmd_createfpg.py:96-124 | appends to this CPG's list; fails without metadata |
| BackendMetadata.BackendStore.RemoveAsDefaultFpg | hpedockerplugin/cmd/cmd_createfpg.py:126-145 | drops the entry, and all lists with the last one |
| BackendMetadata.BackendStore.ReleaseFpg | hpedockerplugin/cmd/cmd_deleteshare.py:82-97 | releases address and default entry together, or saves neither |
| BackendMetadata.BackendStore.FindFreshFpg | hpedockerplugin/file_manager.py:349-377 | the retry loop ends on the first free number at or above the counter |
| BackendMetadata.FewerAbove | hpedockerplugin/file_manager.py:349-377 | each taken name tried leaves fewer names to try |
| BackendMetadata.CounterGrows | hpedockerplugin/cmd/cmd_generate_fpg_vfs_names.py:19-52 | no run of metadata operations takes the counter back |
| BackendMetadata.NumbersCountUp | hpedockerplugin/cmd/cmd_generate_fpg_vfs_names.py:19-52 | over any run the number goes up by one with each name generated, and by nothing else |
| BackendMetadata.FreshNames | hpedockerplugin/cmd/cmd_generate_fpg_vfs_names.py:19-52 | no two executions in a run on one backend return the same FPG name |
| BackendMetadata.UndoDefaultRestores | hpedockerplugin/cmd/cmd_createfpg.py:96-145 | undo gives this CPG its list back, and the others theirs if and only if this one was not empty or they were |
| BackendMetadata.ReleaseRestores | hpedockerplugin/cmd/cmd_deleteshare.py:82-97 | releasing a default FPG gives all lists back; a release raises exactly when the IP is not listed or only other CPGs have defaults |
| IpClaims.StepKeepsInv | hpedockerplugin/cmd/cmd_claimavailableip.py:26-105 | a step keeps live addresses distinct and seen by choosers if and only if it does not remove a failed command's FPG before its marked claim is undone |
| IpClaims.ClaimsAreUnique | hpedockerplugin/file_manager.py:458-493 | at every point of every run without such removals no two commands hold one address, nor a foreign one, and a live one is locked or on its VFS |
| IpClaims.MarkSucceeds | hpedockerplugin/cmd/cmd_claimavailableip.py:86-105 | in every such run marking finds its address locked |
| IpClaims.NoLockLeaks | hpedockerplugin/cmd/cmd_claimavailableip.py:26-105 | in every run, whatever fails, an address is on the locked list once at most, and only while some command's claim is pending |
| IpClaims.ReleasedInTheEnd | hpedockerplugin/cmd/cmd_deleteshare.py:65-97 | an address claimed, marked and released with its FPG is as free as before |
| IpClaims.UndoneInTheEnd | hpedockerplugin/file_manager.py:545-551 | likewise when the command fails after the mark and undoes its list |
| IpClaims.HarmGivesTwoHolders | hpedockerplugin/file_manager.py:408-551 | after any such removal two commands that have not started yet can both claim the address |
| IpClaims.HarmFailsMark | hpedockerplugin/cmd/cmd_claimavailableip.py:34-105 | or the one that claims it first can fail to mark it |
| IpClaims.TwoHoldersReachable | hpedockerplugin/cmd/cmd_deleteshare.py:65-97 | a run from the start in which two commands hold one address |
| IpClaims.WrongOrderUnsafe | hpedockerplugin/file_manager.py:310-312 | with undo run first to last there is a run without any such removal in which two commands hold one address |
| IpClaims.UndoTouchesInUse | hpedockerplugin/cmd/cmd_claimavailableip.py:26-39 | undoing an unmarked claim keeps the in-use list if and only if the address was not on it |
| ShareCreation.SearchEndsOnFirst | hpedockerplugin/file_manager.py:222-277 | the search ends on the first default FPG not passed over, and needs a new FPG exactly when all are |
| ShareCreation.NamedSearch | hpedockerplugin/file_manager.py:139-198 | a named FPG is used if and only if it is there, its check found room, share and quota were made, and its VFS is known under this CPG; a new one is made if and only if it is missing |
| ShareCreation.DefaultSearch | hpedockerplugin/file_manager.py:222-277 | a default FPG is used if and only if its own attempt succeeded and each earlier one is missing, was full or had its quota refused; a new one is made if and only if all were |
| ShareCreation.UndoFpg | hpedockerplugin/cmd/cmd_createfpg.py:64-94 | undoing the FPG restores array, default list and address lists |
| ShareCreation.UndoClaim | hpedockerplugin/cmd/cmd_claimavailableip.py:26-39 | undoing a claim, marked or not, takes exactly its address off the lists |
| ShareCreation.UndoClaimedFpg | hpedockerplugin/file_manager.py:310-312 | claim and FPG undone in reverse order restore everything |
| ShareCreation.FurnishUndone | hpedockerplugin/file_manager.py:471-493 | wherever furnishing a new FPG stops, the undo list so far restores everything |
| ShareCreation.FallbackRestores | hpedockerplugin/file_manager.py:438-508 | a failed fallback is undone completely if and only if FPG creation did not fail half way |
| ShareCreation.FallbackPlaces | hpedockerplugin/file_manager.py:438-493 | a successful fallback adds one FPG, VFS, share and quota, with an address that was free and is now in use |
| ShareCreation.FallbackGoesThrough | hpedockerplugin/file_manager.py:438-493 | the fallback goes through if and only if every step does and some address of the pool is free |
| ShareCreation.UndoPlaced | hpedockerplugin/file_manager.py:310-312 | undoing a placed share takes its quota and the share away |
| ShareCreation.FileManager.Unexecute | hpedockerplugin/file_manager.py:310-312 | the reverse loop computes the undo of the whole list |
| ShareCreation.FileManager.CreateFpg | hpedockerplugin/cmd/cmd_createfpg.py:25-62 | what each way of failing leaves |
| ShareCreation.FileManager.CreateVfs | hpedockerplugin/cmd/cmd_createvfs.py:23-61 | VFS on the array, then in the FPG's metadata |
| ShareCreation.FileManager.CreateShareAndQuota | hpedockerplugin/file_manager.py:385-406 | share, then quota, with record and undo list as far as it got |
| ShareCreation.FileManager.TryOn | hpedockerplugin/file_manager.py:408-433 | share and quota are both there, or the attempt leaves no trace |
| ShareCreation.FileManager.OnDefaults | hpedockerplugin/file_manager.py:408-437 | ends where the search ends; attempts whose quota failed leave no trace |
| ShareCreation.FileManager.OnExisting | hpedockerplugin/file_manager.py:139-198 | a named FPG is used, refused without a trace, or missing |
| ShareCreation.FileManager.Furnish | hpedockerplugin/file_manager.py:471-493 | the state and undo list at the point it stops |
| ShareCreation.FileManager.OnNew | hpedockerplugin/file_manager.py:438-508 | the fallback, and when it goes through |
| ShareCreation.FileManager.CreateShare | hpedockerplugin/file_manager.py:518-551 | all or nothing: one share with one quota on the FPG in its AVAILABLE record, which is the named one or a default one exactly as the checks allow, or a FAILED record and everything restored unless FPG creation failed half way |
| ShareCreation.FileManager.DeleteShare | hpedockerplugin/cmd/cmd_deleteshare.py:27-77 | FAILED drops the record only, CREATING is refused, AVAILABLE deletes share, quota, and an own FPG with its last share |
| ShareCreation.UndoStrandsOthers | hpedockerplugin/file_manager.py:545-551 | whatever others have done by then, undoing a new FPG leaves shares and quotas on existing FPGs if and only if none of another creation is on it |
| ShareCreation.DeleteKeepsOthers | hpedockerplugin/cmd/cmd_deleteshare.py:65-97 | deleting a share takes its quotas, and FPG, VFS, metadata, address and default entry if and only if no other share is on the FPG and etcd has its metadata under this CPG |
| ShareCreation.OtherSharesSurvive | hpedockerplugin/cmd/cmd_deleteshare.py:65-77 | every other share is still there, on an FPG that exists |
| ShareCreation.DeleteUndoesCreate | hpedockerplugin/cmd/cmd_deleteshare.py:65-97 | deletion undoes creation on a new FPG; the lists come back if and only if this CPG or no CPG has defaults by then, as is so for a default FPG |
| Capacity.SumTake | hpedockerplugin/file_manager.py:207-209 | the sum of quotas does not depend on their order |
| Capacity.UsedAdd | hpedockerplugin/file_manager.py:207-209 | a new quota counts once, on its own FPG |
| Capacity.AvailableCapacity | hpedockerplugin/file_manager.py:200-218 | 1024 times the result is 1024 times the capacity in GiB less the sum of the hard quotas in MiB |
| Capacity.CheckInMib | hpedockerplugin/file_manager.py:139-151 | in MiB, a check passes if and only if quotas and share fit in 1024 times the FPG's GiB |
| Capacity.MadeInMib | hpedockerplugin/cmd/cmd_createfpg.py:25-62 | in MiB, a new FPG is large enough for the share it is made for |
| Capacity.RoomInMib | hpedockerplugin/file_manager.py:200-218 | room and capacity in MiB |
| Capacity.StepLoad | hpedockerplugin/file_manager.py:383-433 | quotas plus settled shares of an FPG change by exactly the shares that threads settle on it, give up, or delete |
| Capacity.StepKeepsRoom | hpedockerplugin/file_manager.py:139-277 | a step keeps room for all shares settled on if and only if what it settles fits beside the others |
| Capacity.RoomIsExact | hpedockerplugin/file_manager.py:383-406 | every FPG stays within capacity whichever settled threads write their quotas next if and only if there is room for all |
| Capacity.RunRoom | hpedockerplugin/file_manager.py:408-433 | every point of a run has room if and only if each share fits beside the others when it is settled |
| Capacity.CheckSuffices | hpedockerplugin/file_manager.py:408-433 | under the CPG locks a check that ignores other threads is enough unless it reuses a checked name or looks at another CPG's FPG |
| Capacity.StepKeepsInv | hpedockerplugin/file_manager.py:408-433 | a step that does neither keeps room, exclusion, and each thread on its own CPG's FPG |
| Capacity.ListingsKept | hpedockerplugin/cmd/cmd_deleteshare.py:65-97 | what etcd lists stays with its own CPG if and only if no FPG is made under a name listed for another, and then every check is of the own CPG |
| Capacity.UnlistStopsChecks | hpedockerplugin/cmd/cmd_deleteshare.py:82-97 | once its entry has left etcd, another CPG's FPG is no longer checked |
| Capacity.NeverOvercommitted | hpedockerplugin/file_manager.py:139-277 | in every run of such steps by any number of threads, hard quotas in MiB stay within 1024 times each FPG's capacity in GiB |
| Capacity.FreshNamesSuffice | hpedockerplugin/file_manager.py:314-377 | names that nobody has checked and etcd lists for no other CPG are enough |
| Capacity.ReuseOvercommits | hpedockerplugin/file_manager.py:328-347 | a run in which only the reuse of a checked name breaks it |
| Capacity.StaleListingOvercommits | hpedockerplugin/file_manager.py:222-240 | a run in which only a check by a stale entry of another CPG breaks it |
| ShareMounts.ShareRecord.MountShare | hpedockerplugin/file_manager.py:713-866 | the saved record after a mount, and when it succeeds |
| ShareMounts.ShareRecord.UnmountShare | hpedockerplugin/file_manager.py:868-917 | the saved record after an unmount; it raises exactly when a last unmount's clean-up raises or does not find its address, and then saves nothing |
| ShareMounts.IpsOfTake | hpedockerplugin/file_manager.py:900-903 | the addresses of a set of nodes, counted with repetition, in any order |
| ShareMounts.MountCounted | hpedockerplugin/file_manager.py:757-822 | a mount keeps the counts exact and adds the id to its node |
| ShareMounts.UnmountCounted | hpedockerplugin/file_manager.py:876-907 | an unmount keeps them, drops the node with its last id, and finds its address |
| ShareMounts.RunCounted | hpedockerplugin/file_manager.py:713-917 | over any run by any nodes clientIPs are exactly the mounted nodes' addresses |
| ShareMounts.RunSafe | hpedockerplugin/file_manager.py:553-560 | over any run no address removal fails, and removal is refused exactly while some node holds an id |
| LockOrder.LockKinds | hpedockerplugin/etcdutil.py:227-239 | CPG and FPG lock names have one and two slashes |
| LockOrder.JobInOrder | hpedockerplugin/file_manager.py:408-551 | every share thread takes share, CPG, FPG and backend locks in that order and returns them all |
| LockOrder.JobUnder | hpedockerplugin/file_manager.py:408-551 | a creation holds the share's lock throughout and the CPG's for all its commands, a deletion's thread the FPG's throughout |
| LockOrder.OneHolder | hpedockerplugin/etcdutil.py:505-538 | in every reachable state a lock has one holder |
| LockOrder.StepKeepsInv | hpedockerplugin/synchronization.py:11-43 | every step of any thread keeps the order and mutual exclusion |
| LockOrder.FollowHolders | hpedockerplugin/etcdutil.py:505-538 | following holders of awaited locks ends at a thread that can go on |
| LockOrder.NoDeadlock | hpedockerplugin/cmd/cmd_deleteshare.py:65-83 | no reachable state of any number of share threads is stuck, provided no share is named like a backend |
| LockOrder.CreateAlone | hpedockerplugin/etcdutil.py:505-510 | a lone creation finishes if and only if the share is named like none of the CPG, FPG and backend locks it takes |
| Privsep.StepKeepsInv | oslo/comm.py:86-169 | every step of any caller, the reader or the server keeps the invariant |
| Privsep.NoAssertionFails | oslo/comm.py:133-160 | neither msgid assertion fires |
| Privsep.NoLostWakeup | oslo/comm.py:86-109 | whenever the lock is free every caller with an entry is parked or notified, and no parked one has its answer |
| Privsep.DeliveryWakes | oslo/comm.py:126-137 | each reply finds its caller parked, wakes it, and is what it returns |
| Privsep.EofWakesAll | oslo/comm.py:139-148 | end of file leaves no caller parked |
| Privsep.RunCorrect | oslo/comm.py:112-169 | in every interleaving a call returns only its own reply, and after end of file only later callers are parked |
| Privsep.ResultsAreFinal | oslo/comm.py:154-169 | no later step changes what a call returned |
| Privsep.NeverStuck | oslo/comm.py:86-169 | in every run, while a call is under way that was not late, a caller, the reader or the server can go on: no reply and no lock is lost |
| Privsep.EveryCallEnds | oslo/comm.py:151-169 | in every run each call that was begun is under way or has a result |
| Privsep.LateMeans | oslo/comm.py:139-169 | the late calls are exactly those registered after the reader had stopped |
| Privsep.LateCallerStaysParked | oslo/comm.py:139-169 | no step wakes a call that was sent after the reader had stopped |
| Privsep.LateCallNeverReturns | oslo/comm.py:139-169 | in every run a request sent after the reader has stopped never gets a result |
| Privsep.LateCallReachable | oslo/comm.py:139-169 | a run that ends with such a call |
| Privsep.StepsAreChannelCalls | oslo/comm.py:112-169 | each step does to mailboxes and notified callers what the channel's method of that step does |
| Privsep.ClientChannel.Register | oslo/comm.py:154-163 | refuses a thread that is already in a call |
| Privsep.ClientChannel.ReadEof | oslo/comm.py:139-148 | every mailbox gets the error and every waiter wakes |
| Privsep.ClientChannel.TakeResult | oslo/comm.py:104-169 | error before data, and the entry goes |

## Left out

- HTTP, SSH and etcd clients, Twisted, msgpack framing, os-brick, mkfs, mount and chown: only their effect on the records, the array and the outcome is kept.
- Lock time-to-live and time-outs (`hpedockerplugin/etcdutil.py:520-528`): a lock is held until released.
- The unlocked wait for a graceful unmount before a mount (`hpedockerplugin/volume_manager.py:1269-1290`): it changes no record.
- Looking volumes up by name (`hpedockerplugin/etcdutil.py:456-469`): fencing names a volume by its id, snapshots and shares are keyed by name.
- Mounts with vol_mount other than the default, replication, remote-copy groups and peer persistence, CHAP credentials, host creation, snapshot schedules, snapshot synchronisation, volume import: mostly answers of the array. For replicated volumes rollback differs, because creation writes rcg_info into the dictionary that undo deletes with, and undo of joining a group passes vol_name where bkend_vol_name is read.
- The volume-to-backend cache and deferred execution in the orchestrator: share mounts are taken as atomic.
- Rollback.VolumeCreator.CreateVolume: deleting a volume that others have put into several volume sets is refused by the array; the model only meets the sets the creation itself joined.
- Vluns.Array3Par.DeleteVlun: VLUNs without a port and host sets are not told apart.
- Ipv6.RoundTrip: leaves out the branch for an IPv4 suffix, and int(x, 16) is modelled on plain hexadecimal digits, without signs, prefixes, underscores or blanks, which the printer never writes.
- Names.NameRoundTrip: the base64 decoder's skipping of characters outside the alphabet and the other spellings of a UUID (braces, urn) are not modelled; names made by the encoder have neither.
- ShareCreation.FileManager.CreateShare: undo calls on the array succeed; file stores are one with their shares; apart from FPG and VFS creation a command that fails changes nothing, and the quota command always finds the record that its own thread saved; capacity checks are outcomes here and arithmetic in Capacity. Other threads do not interleave with it: once the CPG's lock is released and before the undo, others can use the new FPG, which UndoStrandsOthers and IpClaims model instead.
- ShareCreation.FileManager.DeleteShare: emptying the share through a temporary mount and a file store that cannot be deleted are not modelled.
- LockOrder.NoDeadlock: volume requests, whose locks share the names' space, are taken to use none of these names; a snapshot DEFAULT of p waits in a cycle with the creation of a share p on backend DEFAULT.
- Snapshots.ForestConsistent: once a clone has doubled a name, the records keep the older of the two, so nothing is said of the younger.
- Capacity.NeverOvercommitted: quotas set by others than the plug-in are not modelled, division is exact as in Python 3, and the configured FPG size is the one requests were checked against.
- ShareMounts.ShareRecord.MountShare: the array's own list of clients, which a mount that fails after registering leaves behind, is not part of the record.
- Fencing.VolumeManager.MountVolume: a path that does not exist is never noticed by the code (it compares a method with False), so no branch stands for it.
- Privsep.RunCorrect: out-of-band messages are ignored, and closing the channel is the server's exit.
- Option validation, configuration, help, listings, logging, password generation and decryption, linuxscsi.py and rootwrap.py: nothing to coordinate.
