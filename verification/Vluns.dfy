/** Volume exports (VLUNs) on the array: the driver calls of hpe_3par_common.py that remove them. */
module Vluns {
  import opened Util

  type Host = string

  /** A VLUN exports a volume to a host. The array lists each export as a template (inactive)
      and, once the host has logged in, also as an active VLUN; removing the template removes both. */
  datatype Vlun = Vlun(vol: string, host: Host, lun: nat, port: nat, active: bool)

  /** Every active VLUN has its template. */
  ghost predicate Coherent(vluns: set<Vlun>) {
    forall v :: v in vluns && v.active ==> v.(active := false) in vluns
  }

  ghost function ExportHosts(vluns: set<Vlun>, vol: string): set<Host> {
    set v | v in vluns && v.vol == vol :: v.host
  }

  /** What exporting `vol` to `host` on the given (lun, port) paths adds: a template and an active VLUN each. */
  ghost function Exports(vol: string, host: Host, paths: set<(nat, nat)>): set<Vlun> {
    set p <- paths, a <- {false, true} :: Vlun(vol, host, p.0, p.1, a)
  }

  /** The VLUN table without the exports of `vol` to the hosts in `hosts`. */
  ghost function Without(vluns: set<Vlun>, vol: string, hosts: set<Host>): set<Vlun> {
    set v | v in vluns && !(v.vol == vol && v.host in hosts)
  }

  /** Only VLUNs of `vol` on the hosts in `hosts` have gone, and none has come. */
  ghost predicate OnlyRemoves(before: set<Vlun>, after: set<Vlun>, vol: string, hosts: set<Host>) {
    Without(before, vol, hosts) <= after <= before
  }

  /** What a successful forced removal leaves: the volume is off two of its hosts. */
  ghost predicate ForceRemoved(before: set<Vlun>, after: set<Vlun>, vol: string) {
    exists hosts: set<Host> ::
      && hosts <= ExportHosts(before, vol)
      && |hosts| == (if |ExportHosts(before, vol)| < 2 then |ExportHosts(before, vol)| else 2)
      && after == Without(before, vol, hosts)
  }

  lemma WithoutHosts(vluns: set<Vlun>, vol: string, hosts: set<Host>)
    ensures ExportHosts(Without(vluns, vol, hosts), vol) == ExportHosts(vluns, vol) - hosts
    ensures Coherent(vluns) ==> Coherent(Without(vluns, vol, hosts))
  {
    forall h | h in ExportHosts(vluns, vol) - hosts
      ensures h in ExportHosts(Without(vluns, vol, hosts), vol)
    {
      var v :| v in vluns && v.vol == vol && v.host == h;
      assert v in Without(vluns, vol, hosts);
    }
  }

  /** Two rounds clear a volume exactly when it was exported to at most two hosts. */
  lemma ForceRemovedClears(before: set<Vlun>, after: set<Vlun>, vol: string)
    requires ForceRemoved(before, after, vol)
    ensures ExportHosts(after, vol) == {} <==> |ExportHosts(before, vol)| <= 2
    ensures OnlyRemoves(before, after, vol, ExportHosts(before, vol))
  {
    var all := ExportHosts(before, vol);
    var hosts :| hosts <= all && |hosts| == (if |all| < 2 then |all| else 2)
                 && after == Without(before, vol, hosts);
    WithoutHosts(before, vol, hosts);
    assert |all - hosts| == |all| - |hosts|;
    if |all| <= 2 {
      assert |all - hosts| == 0;
    }
  }

  lemma WithoutNone(vluns: set<Vlun>, vol: string)
    ensures Without(vluns, vol, {}) == vluns
  {
  }

  /** One more host, cleared completely or only begun. */
  lemma WithoutMore(before: set<Vlun>, vol: string, hosts: set<Host>, host: Host, after: set<Vlun>)
    requires hosts <= ExportHosts(before, vol) && host in ExportHosts(before, vol)
    requires OnlyRemoves(Without(before, vol, hosts), after, vol, {host})
    ensures Without(Without(before, vol, hosts), vol, {host}) == Without(before, vol, hosts + {host})
    ensures OnlyRemoves(before, after, vol, ExportHosts(before, vol))
  {
  }

  lemma ClearedAll(before: set<Vlun>, vol: string, hosts: set<Host>)
    requires hosts == ExportHosts(before, vol) && |hosts| < 2
    ensures ForceRemoved(before, Without(before, vol, hosts), vol)
  {
  }

  lemma ClearedTwo(before: set<Vlun>, vol: string, hosts: set<Host>)
    requires hosts <= ExportHosts(before, vol) && |hosts| == 2
    ensures ForceRemoved(before, Without(before, vol, hosts), vol)
  {
    SubsetSize(hosts, ExportHosts(before, vol));
  }

  class Array3Par {
    var vluns: set<Vlun>
    var hosts: set<Host>

    constructor ()
      ensures vluns == {} && hosts == {}
    {
      vluns, hosts := {}, {};
    }

    /** Every VLUN belongs to a registered host, and templates are never missing. */
    ghost predicate Valid()
      reads this
    {
      Coherent(vluns) && forall v :: v in vluns ==> v.host in hosts
    }

    /** getVLUN: some VLUN of the volume, or None for HTTPNotFound. */
    method GetVlun(vol: string) returns (r: Option<Vlun>)
      ensures r.None? <==> ExportHosts(vluns, vol) == {}
      ensures r.Some? ==> r.value in vluns && r.value.vol == vol
    {
      if v :| v in vluns && v.vol == vol {
        assert v.host in ExportHosts(vluns, vol);
        r := Some(v);
      } else {
        r := None;
      }
    }

    /** getHostVLUNs: every VLUN of the host, in some order; empty stands for HTTPNotFound. */
    method GetHostVluns(host: Host) returns (list: seq<Vlun>)
      ensures forall v :: v in list <==> v in vluns && v.host == host
      ensures NoDup(list)
    {
      list := [];
      var rest := set v | v in vluns && v.host == host;
      while rest != {}
        invariant rest <= (set v | v in vluns && v.host == host)
        invariant forall v :: v in list <==> v in vluns && v.host == host && v !in rest
        invariant NoDup(list)
        decreases |rest|
      {
        var v :| v in rest;
        list, rest := list + [v], rest - {v};
      }
    }

    /** `removevlun -f`, deleteVLUN: removes a template and with it its active VLUN. */
    method RemoveVlun(vol: string, lun: nat, host: Host, port: nat)
      modifies this`vluns
      ensures vluns == old(vluns) - {Vlun(vol, host, lun, port, false), Vlun(vol, host, lun, port, true)}
    {
      vluns := vluns - {Vlun(vol, host, lun, port, false), Vlun(vol, host, lun, port, true)};
    }

    /** initialize_connection, or its part up to a failure: exports the volume to the host on each of the given
        (lun, port) paths, registering the host if need be. */
    method Export(vol: string, host: Host, paths: set<(nat, nat)>)
      requires Valid()
      modifies this
      ensures Valid()
      ensures vluns == old(vluns) + Exports(vol, host, paths)
      ensures hosts == old(hosts) + {host}
    {
      vluns := vluns + (set p <- paths, a <- {false, true} :: Vlun(vol, host, p.0, p.1, a));
      hosts := hosts + {host};
    }

    /** Removes every template of `vol` among `list`, which lists all VLUNs of `host`. */
    method RemoveTemplates(vol: string, host: Host, list: seq<Vlun>, faulty: bool) returns (ok: bool)
      requires Valid()
      requires forall v :: v in list <==> v in vluns && v.host == host
      modifies this`vluns
      ensures Valid()
      ensures OnlyRemoves(old(vluns), vluns, vol, {host})
      ensures ok ==> vluns == Without(old(vluns), vol, {host})
      ensures !faulty ==> ok
    {
      ghost var before := vluns;
      var i := 0;
      while i < |list|
        invariant 0 <= i <= |list|
        invariant Coherent(vluns) && OnlyRemoves(before, vluns, vol, {host})
        invariant forall j :: 0 <= j < i && !list[j].active && list[j].vol == vol ==> list[j] !in vluns
      {
        if !list[i].active && list[i].vol == vol {
          var fails: bool := *;
          if faulty && fails {
            return false;
          }
          RemoveVlun(vol, list[i].lun, host, list[i].port);
        }
        i := i + 1;
      }
      forall v | v in vluns
        ensures !(v.vol == vol && v.host == host)
      {
        var t := v.(active := false);
        assert t in vluns;
        assert t in list ==> exists j :: 0 <= j < |list| && list[j] == t;
      }
      ok := true;
    }

    /** One round of force_remove_volume_vlun: takes the volume off one host that has it, and drops the
        host if it has no VLUN left. */
    method ForceRound(vol: string, faulty: bool) returns (host: Option<Host>, ok: bool)
      requires Valid()
      modifies this
      ensures Valid()
      ensures host.None? <==> ExportHosts(old(vluns), vol) == {}
      ensures host.None? ==> ok && vluns == old(vluns) && hosts == old(hosts)
      ensures host.Some? ==>
                && host.value in ExportHosts(old(vluns), vol)
                && OnlyRemoves(old(vluns), vluns, vol, {host.value})
                && (ok ==> vluns == Without(old(vluns), vol, {host.value}))
                && old(hosts) - {host.value} <= hosts <= old(hosts)
                && (host.value in hosts <==> !ok || exists v :: v in vluns && v.host == host.value)
      ensures !faulty ==> ok
    {
      var found := GetVlun(vol);
      if found.None? {
        return None, true;
      }
      var name := found.value.host;
      assert name in ExportHosts(vluns, vol);
      var list := GetHostVluns(name);
      ok := RemoveTemplates(vol, name, list, faulty);
      host := Some(name);
      if ok {
        var left := GetHostVluns(name);
        if left == [] {
          hosts := hosts - {name};
        } else {
          assert left[0] in left;
        }
      }
    }

    /** force_remove_volume_vlun: two rounds. With `faulty` a removal may raise. */
    method ForceRemoveVolumeVlun(vol: string, faulty: bool) returns (ok: bool)
      requires Valid()
      modifies this
      ensures Valid()
      ensures OnlyRemoves(old(vluns), vluns, vol, ExportHosts(old(vluns), vol))
      ensures ok ==> ForceRemoved(old(vluns), vluns, vol)
      ensures hosts <= old(hosts) && forall h :: h in old(hosts) - hosts ==> h in ExportHosts(old(vluns), vol)
      ensures !faulty ==> ok
    {
      ghost var before := vluns;
      ghost var cleared: set<Host> := {};
      WithoutNone(before, vol);
      var i := 0;
      while i < 2
        invariant 0 <= i <= 2 && Valid()
        invariant cleared <= ExportHosts(before, vol) && |cleared| == i
        invariant vluns == Without(before, vol, cleared)
        invariant hosts <= old(hosts) && old(hosts) - hosts <= cleared
      {
        WithoutHosts(before, vol, cleared);
        var host, removed := ForceRound(vol, faulty);
        if host.None? {
          ClearedAll(before, vol, cleared);
          return true;
        }
        WithoutMore(before, vol, cleared, host.value, vluns);
        if !removed {
          return false;
        }
        cleared := cleared + {host.value};
        i := i + 1;
      }
      ClearedTwo(before, vol, cleared);
      ok := true;
    }

    /** delete_vlun: takes the volume off one host. A VLUN of another volume whose name contains
        this one's makes deleteVLUN fail, so the call is then cut short. */
    method DeleteVlun(vol: string, host: Host) returns (ok: bool)
      requires Valid()
      modifies this
      ensures Valid()
      ensures OnlyRemoves(old(vluns), vluns, vol, {host})
      ensures (forall v :: v in old(vluns) && v.host == host && Contains(v.vol, vol) ==> v.vol == vol)
              ==> ok && vluns == Without(old(vluns), vol, {host})
      ensures hosts == old(hosts) || (hosts == old(hosts) - {host} && forall v :: v in vluns ==> v.host != host)
      ensures ok && host in ExportHosts(old(vluns), vol) ==>
                (host in hosts <==> exists v :: v in vluns && v.host == host)
    {
      ghost var before := vluns;
      var list := GetHostVluns(host);
      var templates := [];
      var i := 0;
      while i < |list|
        invariant 0 <= i <= |list|
        invariant forall v :: v in templates <==> v in list[..i] && Contains(v.vol, vol) && !v.active
      {
        if Contains(list[i].vol, vol) && !list[i].active {
          templates := templates + [list[i]];
        }
        i := i + 1;
      }
      assert list[..i] == list;
      SelfContained(vol);
      if templates == [] {
        forall v | v in vluns
          ensures !(v.vol == vol && v.host == host)
        {
          var t := v.(active := false);
          assert t in vluns;
          assert t !in templates;
        }
        assert host !in ExportHosts(vluns, vol);
        return true;
      }
      i := 0;
      while i < |templates|
        invariant 0 <= i <= |templates|
        invariant Coherent(vluns) && OnlyRemoves(before, vluns, vol, {host}) && hosts == old(hosts)
        invariant forall j :: 0 <= j < i && templates[j].vol == vol ==> templates[j] !in vluns
      {
        var t := templates[i];
        if t.vol != vol && Vlun(vol, host, t.lun, t.port, false) !in vluns {
          return false;  // deleteVLUN raises HTTPNotFound
        }
        RemoveVlun(vol, t.lun, host, t.port);
        i := i + 1;
      }
      forall v | v in vluns
        ensures !(v.vol == vol && v.host == host)
      {
        var t := v.(active := false);
        assert t in vluns;
        assert t in templates ==> exists j :: 0 <= j < |templates| && templates[j] == t;
      }
      var left := GetHostVluns(host);
      assert left != [] ==> left[0] in left;
      if forall v | v in left :: Contains(v.vol, vol) {
        // the array refuses to drop a host that still has VLUNs, and that refusal is only logged
        if left == [] {
          hosts := hosts - {host};
        }
      }
      ok := true;
    }
  }

  lemma SelfContained(vol: string)
    ensures Contains(vol, vol)
  {
    assert vol[0..0 + |vol|] == vol;
    assert OccursAt(vol, vol, 0);
  }
}
