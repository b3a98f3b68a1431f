/** Mounting and unmounting file shares (file_manager.py): which nodes have a share mounted, for
    which mount ids, and which client addresses it is exported to. */
module ShareMounts {
  import opened Util

  type Node = string
  type MountId = string
  type Ip = string

  datatype Status = NoStatus | Creating | Available | FailedStatus | Unknown

  /** The mount fields of a share's record; pathInfo is None when the key is absent. */
  datatype Share = Share(status: Status, pathInfo: Option<map<Node, seq<MountId>>>, clientIPs: seq<Ip>)

  /** Whether permissions were asked for, and what the array answers about them. */
  datatype Env = Env(wantsOwner: bool, userKnown: bool, mountOk: bool, aclOk: bool)

  predicate Mountable(s: Share) {
    s.status.NoStatus? || s.status.Available?
  }

  function Paths(s: Share): map<Node, seq<MountId>> {
    if s.pathInfo.Some? then s.pathInfo.value else map[]
  }

  /** A first mount on a node goes through unless the user is unknown, the mount command fails or
      the access list cannot be set; the last two matter only for the very first mount of a share. */
  predicate Mounts(s: Share, env: Env) {
    env.mountOk && (env.wantsOwner && Paths(s) == map[] ==> env.userKnown && env.aclOk)
  }

  /** The saved record after mount_share. */
  function AfterMount(s: Share, n: Node, ip: Ip, mid: MountId, env: Env): Share {
    if !Mountable(s) then s
    else if n in Paths(s) && Paths(s)[n] != [] then
      if mid in Paths(s)[n] then s else s.(pathInfo := Some(Paths(s)[n := Paths(s)[n] + [mid]]))
    else if Mounts(s, env) then
      s.(pathInfo := Some(Paths(s)[n := [mid]]), clientIPs := s.clientIPs + [ip])
    else s
  }

  /** The saved record after unmount_share; `cleaned` says whether unmounting, removing the directory and telling the
      array about a last unmount raise no exception. */
  function AfterUnmount(s: Share, n: Node, ip: Ip, mid: MountId, cleaned: bool): Share {
    if n !in Paths(s) || mid !in Paths(s)[n] then s
    else
      var left := RemoveFirst(Paths(s)[n], mid);
      if left != [] then s.(pathInfo := Some(Paths(s)[n := left]))
      else if !cleaned then s
      else
        var rest := Paths(s) - {n};
        s.(pathInfo := if rest == map[] then None else Some(rest), clientIPs := RemoveFirst(s.clientIPs, ip))
  }

  class ShareRecord {
    var share: Share

    constructor (share: Share)
      ensures this.share == share
    {
      this.share := share;
    }

    /** mount_share on node `n` with address `ip`. */
    method MountShare(n: Node, ip: Ip, mid: MountId, env: Env) returns (ok: bool)
      modifies this
      ensures share == AfterMount(old(share), n, ip, mid, env)
      ensures old(share).status in {Creating, FailedStatus, Unknown} ==> !ok && share == old(share)
      ensures ok <==> Mountable(old(share))
                      && ((n in Paths(old(share)) && Paths(old(share))[n] != []) || Mounts(old(share), env))
    {
      if share.status == FailedStatus || share.status == Creating || share.status == Unknown {
        return false;
      }
      var aclsAlreadySet := false;
      var paths := if share.pathInfo.Some? then share.pathInfo.value else map[];
      if paths != map[] {
        aclsAlreadySet := true;
        if n in paths && paths[n] != [] {
          if mid !in paths[n] {
            share := share.(pathInfo := Some(paths[n := paths[n] + [mid]]));
          }
          return true;
        }
      }
      if env.wantsOwner && !aclsAlreadySet && !env.userKnown {
        return false;
      }
      var clientIPs := share.clientIPs + [ip];
      paths := paths[n := [mid]];
      if !env.mountOk || (env.wantsOwner && !aclsAlreadySet && !env.aclOk) {
        return false;
      }
      share := share.(pathInfo := Some(paths), clientIPs := clientIPs);
      ok := true;
    }

    /** unmount_share; an exception (not `ok`) saves nothing. */
    method UnmountShare(n: Node, ip: Ip, mid: MountId, cleaned: bool) returns (ok: bool)
      modifies this
      ensures !ok <==> LastUnmount(old(share), n, mid) && (!cleaned || ip !in old(share).clientIPs)
      ensures share == if ok then AfterUnmount(old(share), n, ip, mid, cleaned) else old(share)
    {
      ok := true;
      if share.pathInfo.Some? && share.pathInfo.value != map[] {
        var paths := share.pathInfo.value;
        if n in paths && mid in paths[n] {
          var ids := RemoveFirst(paths[n], mid);
          var clientIPs := share.clientIPs;
          if ids == [] {
            if !cleaned || ip !in clientIPs {
              return false;
            }
            paths := paths - {n};
            clientIPs := RemoveFirst(clientIPs, ip);
          } else {
            paths := paths[n := ids];
          }
          share := share.(pathInfo := if paths == map[] then None else Some(paths), clientIPs := clientIPs);
        }
      }
    }

    /** remove_share: refuses while the record has a path_info key, which on a counted record means while some
        node has the share mounted. */
    method RemoveRefused() returns (refused: bool)
      ensures refused <==> share.pathInfo.Some?
      ensures forall ipOf :: Counted(share, ipOf) ==>
                (refused <==> exists n :: n in Paths(share) && Paths(share)[n] != [])
    {
      refused := share.pathInfo.Some?;
      if share.pathInfo.Some? && share.pathInfo.value != map[] {
        var n :| n in share.pathInfo.value;
        assert n in Paths(share);
      }
    }
  }

  predicate LastUnmount(s: Share, n: Node, mid: MountId) {
    n in Paths(s) && mid in Paths(s)[n] && RemoveFirst(Paths(s)[n], mid) == []
  }

  // ---- counting ----

  /** The addresses of a set of nodes, with repetition. */
  ghost function IpsOf(nodes: set<Node>, ipOf: map<Node, Ip>): multiset<Ip>
    requires nodes <= ipOf.Keys
  {
    if nodes == {} then multiset{}
    else var n :| n in nodes; multiset{ipOf[n]} + IpsOf(nodes - {n}, ipOf)
  }

  lemma {:induction false} IpsOfTake(nodes: set<Node>, ipOf: map<Node, Ip>, n: Node)
    requires nodes <= ipOf.Keys && n in nodes
    ensures IpsOf(nodes, ipOf) == multiset{ipOf[n]} + IpsOf(nodes - {n}, ipOf)
    decreases |nodes|
  {
    var m :| m in nodes && IpsOf(nodes, ipOf) == multiset{ipOf[m]} + IpsOf(nodes - {m}, ipOf);
    if m != n {
      IpsOfTake(nodes - {m}, ipOf, n);
      IpsOfTake(nodes - {n}, ipOf, m);
      assert nodes - {m} - {n} == nodes - {n} - {m};
    }
  }

  /** Every listed node has a non-empty duplicate-free id list, the key is there iff some node has
      the share mounted, and clientIPs are exactly the mounted nodes' addresses. */
  ghost predicate Counted(s: Share, ipOf: map<Node, Ip>) {
    (s.pathInfo.Some? ==> s.pathInfo.value != map[]) && CountedPaths(Paths(s), s.clientIPs, ipOf)
  }

  ghost predicate CountedPaths(paths: map<Node, seq<MountId>>, ips: seq<Ip>, ipOf: map<Node, Ip>) {
    && (forall n :: n in paths ==> paths[n] != [] && NoDup(paths[n]))
    && paths.Keys <= ipOf.Keys
    && multiset(ips) == IpsOf(paths.Keys, ipOf)
  }

  lemma SetIds(paths: map<Node, seq<MountId>>, ips: seq<Ip>, ipOf: map<Node, Ip>, n: Node, ids: seq<MountId>)
    requires CountedPaths(paths, ips, ipOf) && n in paths && ids != [] && NoDup(ids)
    ensures CountedPaths(paths[n := ids], ips, ipOf)
  {
    assert paths[n := ids].Keys == paths.Keys;
  }

  lemma AddNode(paths: map<Node, seq<MountId>>, ips: seq<Ip>, ipOf: map<Node, Ip>, n: Node, mid: MountId)
    requires CountedPaths(paths, ips, ipOf) && n !in paths && n in ipOf
    ensures CountedPaths(paths[n := [mid]], ips + [ipOf[n]], ipOf)
  {
    var more := paths[n := [mid]];
    assert more.Keys == paths.Keys + {n} && more.Keys - {n} == paths.Keys;
    IpsOfTake(more.Keys, ipOf, n);
    assert multiset(ips + [ipOf[n]]) == multiset(ips) + multiset{ipOf[n]};
    assert forall m :: m in more ==> more[m] == if m == n then [mid] else paths[m];
  }

  lemma DropNode(paths: map<Node, seq<MountId>>, ips: seq<Ip>, ipOf: map<Node, Ip>, n: Node)
    requires CountedPaths(paths, ips, ipOf) && n in paths
    ensures ipOf[n] in ips && CountedPaths(paths - {n}, RemoveFirst(ips, ipOf[n]), ipOf)
  {
    IpsOfTake(paths.Keys, ipOf, n);
    assert (paths - {n}).Keys == paths.Keys - {n};
    assert ipOf[n] in multiset(ips);
    RemoveFirstMultiset(ips, ipOf[n]);
  }

  /** Which mount ids each node holds. */
  ghost function Holdings(paths: map<Node, seq<MountId>>): (h: map<Node, set<MountId>>)
    ensures h.Keys == paths.Keys
  {
    map n | n in paths :: Elems(paths[n])
  }

  lemma HoldingsSet(paths: map<Node, seq<MountId>>, n: Node, ids: seq<MountId>)
    ensures Holdings(paths[n := ids]) == Holdings(paths)[n := Elems(ids)]
    ensures Holdings(paths - {n}) == Holdings(paths) - {n}
  {
  }

  datatype Event = Mount(n: Node, mid: MountId, env: Env) | Unmount(n: Node, mid: MountId, cleaned: bool)

  function Step(s: Share, e: Event, ipOf: map<Node, Ip>): Share
    requires e.n in ipOf
  {
    match e
    case Mount(n, mid, env) => AfterMount(s, n, ipOf[n], mid, env)
    case Unmount(n, mid, cleaned) => AfterUnmount(s, n, ipOf[n], mid, cleaned)
  }

  /** The same on plain sets of mount ids. */
  function HoldStep(h: map<Node, set<MountId>>, e: Event, mountable: bool): map<Node, set<MountId>> {
    match e
    case Mount(n, mid, env) =>
      if !mountable then h
      else if n in h then h[n := h[n] + {mid}]
      else if env.mountOk && (env.wantsOwner && h == map[] ==> env.userKnown && env.aclOk) then h[n := {mid}]
      else h
    case Unmount(n, mid, cleaned) =>
      if n !in h || mid !in h[n] then h
      else if h[n] == {mid} then if cleaned then h - {n} else h
      else h[n := h[n] - {mid}]
  }

  lemma MountCounted(s: Share, n: Node, mid: MountId, env: Env, ipOf: map<Node, Ip>)
    requires Counted(s, ipOf) && n in ipOf
    ensures var s' := AfterMount(s, n, ipOf[n], mid, env);
            Counted(s', ipOf) && Holdings(Paths(s')) == HoldStep(Holdings(Paths(s)), Mount(n, mid, env), Mountable(s))
  {
    var paths := Paths(s);
    assert Holdings(paths) == map[] <==> paths == map[];
    if Mountable(s) {
      if n in paths {
        MountAgain(paths[n], mid);
        if mid in paths[n] {
          assert Holdings(paths)[n := Elems(paths[n])] == Holdings(paths);
        } else {
          SetIds(paths, s.clientIPs, ipOf, n, paths[n] + [mid]);
          HoldingsSet(paths, n, paths[n] + [mid]);
        }
      } else if Mounts(s, env) {
        AddNode(paths, s.clientIPs, ipOf, n, mid);
        HoldingsSet(paths, n, [mid]);
        assert Elems([mid]) == {mid};
      }
    }
  }

  lemma MountAgain(ids: seq<MountId>, mid: MountId)
    requires NoDup(ids)
    ensures mid in ids ==> Elems(ids) + {mid} == Elems(ids)
    ensures mid !in ids ==> NoDup(ids + [mid]) && Elems(ids + [mid]) == Elems(ids) + {mid}
  {
  }

  lemma UnmountCounted(s: Share, n: Node, mid: MountId, cleaned: bool, ipOf: map<Node, Ip>)
    requires Counted(s, ipOf) && n in ipOf
    ensures var s' := AfterUnmount(s, n, ipOf[n], mid, cleaned);
            && Counted(s', ipOf)
            && Holdings(Paths(s')) == HoldStep(Holdings(Paths(s)), Unmount(n, mid, cleaned), Mountable(s))
    ensures LastUnmount(s, n, mid) ==> ipOf[n] in s.clientIPs
  {
    var paths := Paths(s);
    if n in paths && mid in paths[n] {
      var left := RemoveFirst(paths[n], mid);
      UnmountOnce(paths[n], mid);
      HoldingsSet(paths, n, left);
      if left == [] {
        DropNode(paths, s.clientIPs, ipOf, n);
      } else {
        SetIds(paths, s.clientIPs, ipOf, n, left);
      }
    }
  }

  lemma UnmountOnce(ids: seq<MountId>, mid: MountId)
    requires NoDup(ids) && mid in ids
    ensures var left := RemoveFirst(ids, mid);
            NoDup(left) && Elems(left) == Elems(ids) - {mid} && (left == [] <==> Elems(ids) == {mid})
  {
    RemoveFirstNoDup(ids, mid);
    var left := RemoveFirst(ids, mid);
    if left != [] {
      assert left[0] in Elems(ids) && left[0] != mid;
    }
  }

  /** The record after a run of mounts and unmounts by any nodes. */
  function AfterRun(s: Share, events: seq<Event>, ipOf: map<Node, Ip>): Share
    requires forall i :: 0 <= i < |events| ==> events[i].n in ipOf
  {
    if events == [] then s
    else Step(AfterRun(s, events[..|events| - 1], ipOf), events[|events| - 1], ipOf)
  }

  function HoldAfter(h: map<Node, set<MountId>>, events: seq<Event>, mountable: bool): map<Node, set<MountId>> {
    if events == [] then h
    else HoldStep(HoldAfter(h, events[..|events| - 1], mountable), events[|events| - 1], mountable)
  }

  predicate Unmounted(s: Share) {
    s.pathInfo.None? && s.clientIPs == []
  }

  lemma StepCounted(s: Share, e: Event, ipOf: map<Node, Ip>)
    requires Counted(s, ipOf) && e.n in ipOf
    ensures Counted(Step(s, e, ipOf), ipOf) && Step(s, e, ipOf).status == s.status
    ensures Holdings(Paths(Step(s, e, ipOf))) == HoldStep(Holdings(Paths(s)), e, Mountable(s))
  {
    match e
    case Mount(n, mid, env) => MountCounted(s, n, mid, env, ipOf);
    case Unmount(n, mid, cleaned) => UnmountCounted(s, n, mid, cleaned, ipOf);
  }

  /** Over any run by any nodes, from a share nobody has mounted, the counts stay exact and the record
      follows the sets of mount ids. */
  lemma {:induction false} RunCounted(s: Share, events: seq<Event>, ipOf: map<Node, Ip>)
    requires Unmounted(s) && forall i :: 0 <= i < |events| ==> events[i].n in ipOf
    ensures var t := AfterRun(s, events, ipOf);
            && Counted(t, ipOf) && t.status == s.status
            && Holdings(Paths(t)) == HoldAfter(map[], events, s.status.NoStatus? || s.status.Available?)
    decreases |events|
  {
    if events == [] {
      assert Holdings(Paths(s)) == map[];
    } else {
      var k := |events| - 1;
      RunCounted(s, events[..k], ipOf);
      StepCounted(AfterRun(s, events[..k], ipOf), events[k], ipOf);
    }
  }

  /** After any run, the last unmount on a node finds the node's address to remove, and a removal of
      the share is refused exactly while some node holds a mount id. */
  lemma RunSafe(s: Share, events: seq<Event>, ipOf: map<Node, Ip>, n: Node, mid: MountId)
    requires Unmounted(s) && (forall i :: 0 <= i < |events| ==> events[i].n in ipOf) && n in ipOf
    ensures var t := AfterRun(s, events, ipOf);
            && (LastUnmount(t, n, mid) ==> ipOf[n] in t.clientIPs)
            && (t.pathInfo.Some? <==> HoldAfter(map[], events, s.status.NoStatus? || s.status.Available?) != map[])
  {
    RunCounted(s, events, ipOf);
    var t := AfterRun(s, events, ipOf);
    UnmountCounted(t, n, mid, true, ipOf);
    assert Holdings(Paths(t)).Keys == Paths(t).Keys;
  }
}
