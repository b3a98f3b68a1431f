/** The file-persona metadata of one backend (the hpedockerplugin/cmd package): the name counter, the IP lists
    and the default FPGs. Every operation is one read-modify-write under the backend lock. */
module BackendMetadata {
  import opened Util

  type Ip = string
  type Cpg = string
  type Fpg = string

  datatype Meta = Meta(ipsInUse: seq<Ip>, ipsLocked: seq<Ip>, counter: Option<nat>,
                       defaultFpgs: Option<map<Cpg, seq<Fpg>>>)

  const EMPTY: Meta := Meta([], [], None, None)

  // ---- names ----

  function Decimal(n: nat): string {
    if n < 10 then ['0' + n as char] else Decimal(n / 10) + ['0' + (n % 10) as char]
  }

  function FpgName(n: nat): Fpg {
    "DockerFpg_" + Decimal(n)
  }

  function VfsName(n: nat): string {
    "DockerVfs_" + Decimal(n)
  }

  lemma {:induction false} DecimalInjective(m: nat, n: nat)
    ensures Decimal(m) == Decimal(n) ==> m == n
  {
    var s, t := Decimal(m), Decimal(n);
    if s == t {
      assert s[|s| - 1] == '0' + (m % 10) as char && t[|t| - 1] == '0' + (n % 10) as char;
      if m >= 10 && n >= 10 {
        assert s[..|s| - 1] == Decimal(m / 10) && t[..|t| - 1] == Decimal(n / 10);
        DecimalInjective(m / 10, n / 10);
      } else {
        DecimalLength(m);
        DecimalLength(n);
      }
    }
  }

  lemma {:induction false} DecimalLength(n: nat)
    ensures |Decimal(n)| == 1 <==> n < 10
  {
    if n >= 10 {
      assert |Decimal(n / 10)| > 0;
    }
  }

  /** The number that decimal digits stand for, most significant first. */
  function DigitsValue(s: string): int {
    if s == "" then 0 else DigitsValue(s[..|s| - 1]) * 10 + (s[|s| - 1] as int - '0' as int)
  }

  /** A number is printed in decimal digits, without leading zeros. */
  lemma {:induction false} DecimalValue(n: nat)
    ensures DigitsValue(Decimal(n)) == n
    ensures forall i :: 0 <= i < |Decimal(n)| ==> '0' <= Decimal(n)[i] <= '9'
    ensures Decimal(n) != "" && (Decimal(n)[0] == '0' <==> n == 0)
  {
    if n >= 10 {
      DecimalValue(n / 10);
      assert Decimal(n)[..|Decimal(n)| - 1] == Decimal(n / 10);
    }
  }

  /** The first generated names on a backend carry 0, or 1 when other metadata was there before. */
  lemma FirstNames(m: Meta)
    ensures FpgName(NextNumber(None)) == "DockerFpg_0" && VfsName(NextNumber(None)) == "DockerVfs_0"
    ensures m.counter.None? ==>
              FpgName(NextNumber(Some(m))) == "DockerFpg_1" && VfsName(NextNumber(Some(m))) == "DockerVfs_1"
  {
  }

  lemma FpgNameInjective(m: nat, n: nat)
    ensures FpgName(m) == FpgName(n) ==> m == n
  {
    assert FpgName(m)[10..] == Decimal(m) && FpgName(n)[10..] == Decimal(n);
    DecimalInjective(m, n);
  }

  /** The number the next generated name will carry. */
  function NextNumber(meta: Option<Meta>): nat {
    match meta
    case None => 0
    case Some(m) => if m.counter.None? then 1 else m.counter.value + 1
  }

  function Counted(meta: Option<Meta>): Meta {
    match meta
    case None => EMPTY.(counter := Some(0))
    case Some(m) => m.(counter := Some(NextNumber(meta)))
  }

  // ---- IP lists ----

  /** An address that a claim may return: in the first pool that has any address not in use. */
  predicate Claimable(pool: seq<(string, set<Ip>)>, taken: set<Ip>, ip: Ip, netmask: string) {
    exists i :: && 0 <= i < |pool| && pool[i].0 == netmask && ip in pool[i].1 && ip !in taken
                && forall j :: 0 <= j < i ==> pool[j].1 <= taken
  }

  function Locked(meta: Option<Meta>): seq<Ip> {
    if meta.None? then [] else meta.value.ipsLocked
  }

  function InUse(meta: Option<Meta>): seq<Ip> {
    if meta.None? then [] else meta.value.ipsInUse
  }

  function Initialized(meta: Option<Meta>): Meta {
    if meta.None? then EMPTY else meta.value
  }

  function WithLocked(meta: Option<Meta>, ip: Ip): Meta {
    Initialized(meta).(ipsLocked := Locked(meta) + [ip])
  }

  /** mark_ip_in_use: None is its failure, which changes nothing. */
  function Marked(meta: Option<Meta>, ip: Ip): Option<Meta> {
    if meta.None? || ip !in meta.value.ipsLocked then None
    else Some(meta.value.(ipsLocked := RemoveFirst(meta.value.ipsLocked, ip), ipsInUse := meta.value.ipsInUse + [ip]))
  }

  /** ClaimAvailableIPCmd.unexecute */
  function Unclaimed(meta: Meta, ip: Ip): Meta {
    meta.(ipsInUse := RemoveFirst(meta.ipsInUse, ip), ipsLocked := RemoveFirst(meta.ipsLocked, ip))
  }

  // ---- default FPGs ----

  function DefaultsOf(meta: Option<Meta>, cpg: Cpg): seq<Fpg> {
    if meta.Some? && meta.value.defaultFpgs.Some? && cpg in meta.value.defaultFpgs.value
    then meta.value.defaultFpgs.value[cpg] else []
  }

  /** CreateFpgCmd._add_to_default_fpg */
  function AddDefault(m: Meta, cpg: Cpg, fpg: Fpg): Meta {
    if m.defaultFpgs.Some? && m.defaultFpgs.value != map[] then
      m.(defaultFpgs := Some(m.defaultFpgs.value[cpg := DefaultsOf(Some(m), cpg) + [fpg]]))
    else m.(defaultFpgs := Some(map[cpg := [fpg]]))
  }

  /** CreateFpgCmd._remove_as_default_fpg: once the list is empty, all CPGs' entries go. */
  function UndoDefault(m: Meta, cpg: Cpg, fpg: Fpg): Meta {
    var list := DefaultsOf(Some(m), cpg);
    if fpg !in list then m
    else
      var left := RemoveFirst(list, fpg);
      m.(defaultFpgs := if left == [] then None else Some(m.defaultFpgs.value[cpg := left]))
  }

  /** DeleteShareCmd._update_backend_metadata releases the IP and the default entry together; an
      exception on the way (None) saves neither. */
  function Released(m: Meta, cpg: Cpg, fpg: Fpg, ip: Ip): Option<Meta> {
    if ip !in m.ipsInUse then None
    else
      var freed := m.(ipsInUse := RemoveFirst(m.ipsInUse, ip));
      if m.defaultFpgs.None? || m.defaultFpgs.value == map[] then Some(freed)
      else if cpg !in m.defaultFpgs.value then None  // "in None" raises TypeError
      else
        var list := m.defaultFpgs.value[cpg];
        if fpg !in list then Some(freed)
        else
          var left := RemoveFirst(list, fpg);
          Some(freed.(defaultFpgs := Some(if left == [] then m.defaultFpgs.value - {cpg}
                                          else m.defaultFpgs.value[cpg := left])))
  }

  class BackendStore {
    var meta: Option<Meta>

    constructor ()
      ensures meta == None
    {
      meta := None;
    }

    /** GenerateFpgVfsNamesCmd.execute */
    method GenerateNames() returns (fpg: Fpg, vfs: string)
      modifies this
      ensures fpg == FpgName(NextNumber(old(meta))) && vfs == VfsName(NextNumber(old(meta)))
      ensures meta == Some(Counted(old(meta)))
    {
      if meta.None? {
        meta := Some(EMPTY.(counter := Some(0)));
        return "DockerFpg_0", "DockerVfs_0";
      }
      var counter := (if meta.value.counter.Some? then meta.value.counter.value else 0) + 1;
      meta := Some(meta.value.(counter := Some(counter)));
      return "DockerFpg_" + Decimal(counter), "DockerVfs_" + Decimal(counter);
    }

    /** ClaimAvailableIPCmd._get_available_ip; `onArray` are the addresses of all virtual file servers. */
    method ClaimIp(onArray: set<Ip>, pool: seq<(string, set<Ip>)>) returns (r: Option<(Ip, string)>)
      modifies this
      ensures var taken := onArray + Elems(Locked(old(meta)));
              && (r.None? <==> forall i :: 0 <= i < |pool| ==> pool[i].1 <= taken)
              && (r.Some? ==> Claimable(pool, taken, r.value.0, r.value.1))
      ensures meta == Some(if r.Some? then WithLocked(old(meta), r.value.0) else Initialized(old(meta)))
    {
      if meta.None? {
        meta := Some(EMPTY);
      }
      var taken := onArray + Elems(meta.value.ipsLocked);
      var i := 0;
      while i < |pool|
        invariant 0 <= i <= |pool| && meta == Some(Initialized(old(meta)))
        invariant forall j :: 0 <= j < i ==> pool[j].1 <= taken
      {
        var available := pool[i].1 - taken;
        if available != {} {
          var ip :| ip in available;
          meta := Some(meta.value.(ipsLocked := meta.value.ipsLocked + [ip]));
          return Some((ip, pool[i].0));
        }
        assert forall ip :: ip in pool[i].1 && ip !in taken ==> ip in available;
        i := i + 1;
      }
      r := None;
    }

    /** mark_ip_in_use */
    method MarkIpInUse(ip: Ip) returns (ok: bool)
      modifies this
      ensures ok <==> Marked(old(meta), ip).Some?
      ensures meta == if ok then Marked(old(meta), ip) else old(meta)
    {
      if meta.None? || ip !in meta.value.ipsLocked {
        return false;
      }
      var locked := RemoveFirst(meta.value.ipsLocked, ip);
      meta := Some(meta.value.(ipsLocked := locked, ipsInUse := meta.value.ipsInUse + [ip]));
      ok := true;
    }

    /** ClaimAvailableIPCmd.unexecute */
    method UnclaimIp(ip: Ip)
      modifies this
      ensures meta == if old(meta).None? then None else Some(Unclaimed(old(meta).value, ip))
    {
      if meta.Some? {
        var inUse, locked := meta.value.ipsInUse, meta.value.ipsLocked;
        RemoveAbsent(inUse, ip);
        RemoveAbsent(locked, ip);
        if ip in inUse {
          inUse := RemoveFirst(inUse, ip);
        }
        if ip in locked {
          locked := RemoveFirst(locked, ip);
        }
        meta := Some(meta.value.(ipsInUse := inUse, ipsLocked := locked));
      }
    }

    /** CreateFpgCmd._add_to_default_fpg */
    method AddToDefaultFpg(cpg: Cpg, fpg: Fpg) returns (ok: bool)
      modifies this
      ensures ok <==> old(meta).Some?
      ensures meta == if ok then Some(AddDefault(old(meta).value, cpg, fpg)) else old(meta)
    {
      if meta.None? {
        return false;
      }
      var defaults := if meta.value.defaultFpgs.Some? then meta.value.defaultFpgs.value else map[];
      assert [] + [fpg] == [fpg];
      if defaults != map[] {
        if cpg in defaults && defaults[cpg] != [] {
          defaults := defaults[cpg := defaults[cpg] + [fpg]];
        } else {
          defaults := defaults[cpg := [fpg]];
        }
      } else {
        defaults := map[cpg := [fpg]];
      }
      meta := Some(meta.value.(defaultFpgs := Some(defaults)));
      ok := true;
    }

    /** CreateFpgCmd._remove_as_default_fpg */
    method RemoveAsDefaultFpg(cpg: Cpg, fpg: Fpg)
      modifies this
      ensures meta == if old(meta).None? then None else Some(UndoDefault(old(meta).value, cpg, fpg))
    {
      if meta.Some? && meta.value.defaultFpgs.Some? {
        var defaults := meta.value.defaultFpgs.value;
        if cpg in defaults && fpg in defaults[cpg] {
          var list := RemoveFirst(defaults[cpg], fpg);
          meta := Some(meta.value.(defaultFpgs := if list == [] then None else Some(defaults[cpg := list])));
        }
      }
    }

    /** DeleteShareCmd._update_backend_metadata */
    method ReleaseFpg(cpg: Cpg, fpg: Fpg, ip: Ip) returns (saved: bool)
      modifies this
      ensures saved <==> old(meta).Some? && Released(old(meta).value, cpg, fpg, ip).Some?
      ensures meta == if saved then Released(old(meta).value, cpg, fpg, ip) else old(meta)
    {
      if meta.None? || ip !in meta.value.ipsInUse {
        return false;
      }
      var m := meta.value.(ipsInUse := RemoveFirst(meta.value.ipsInUse, ip));
      if m.defaultFpgs.Some? && m.defaultFpgs.value != map[] {
        var defaults := m.defaultFpgs.value;
        if cpg !in defaults {
          return false;
        }
        if fpg in defaults[cpg] {
          var list := RemoveFirst(defaults[cpg], fpg);
          m := m.(defaultFpgs := Some(if list == [] then defaults - {cpg} else defaults[cpg := list]));
        }
      }
      meta := Some(m);
      saved := true;
    }

    /** FileManager._create_default_fpg: new names until the array does not have the FPG already. */
    method FindFreshFpg(existing: set<Fpg>) returns (fpg: Fpg, vfs: string, ghost number: nat)
      modifies this
      ensures number >= NextNumber(old(meta)) && fpg == FpgName(number) && vfs == VfsName(number)
      ensures fpg !in existing
      ensures forall k :: NextNumber(old(meta)) <= k < number ==> FpgName(k) in existing
      ensures meta.Some? && NextNumber(meta) == number + 1
      ensures Locked(meta) == Locked(old(meta)) && InUse(meta) == InUse(old(meta))
      ensures old(meta).Some? ==> meta.value.defaultFpgs == old(meta).value.defaultFpgs
      ensures old(meta).None? ==> meta.value.defaultFpgs == None
    {
      number := NextNumber(meta);
      fpg, vfs := GenerateNames();
      while fpg in existing
        invariant meta.Some? && NextNumber(meta) == number + 1
        invariant number >= NextNumber(old(meta)) && fpg == FpgName(number) && vfs == VfsName(number)
        invariant forall k :: NextNumber(old(meta)) <= k < number ==> FpgName(k) in existing
        invariant Locked(meta) == Locked(old(meta)) && InUse(meta) == InUse(old(meta))
        invariant meta.value.defaultFpgs == if old(meta).Some? then old(meta).value.defaultFpgs else None
        decreases |NumberedFrom(existing, number)|
      {
        FewerAbove(existing, number);
        fpg, vfs := GenerateNames();
        number := number + 1;
      }
    }
  }

  /** The existing names that carry a number of at least `k`. */
  ghost function NumberedFrom(existing: set<Fpg>, k: nat): set<Fpg> {
    set f | f in existing && exists n: nat :: n >= k && f == FpgName(n)
  }

  /** The measure of the retry loop: each name tried and found taken leaves fewer to try. */
  lemma FewerAbove(existing: set<Fpg>, k: nat)
    requires FpgName(k) in existing
    ensures |NumberedFrom(existing, k + 1)| < |NumberedFrom(existing, k)|
  {
    var above, from := NumberedFrom(existing, k + 1), NumberedFrom(existing, k);
    assert FpgName(k) in from;
    forall n: nat | n >= k + 1
      ensures FpgName(n) != FpgName(k)
    {
      FpgNameInjective(n, k);
    }
    assert above <= from - {FpgName(k)};
    SubsetSize(above, from - {FpgName(k)});
  }

  // ---- fresh names over whole runs ----

  datatype Op =
    | Generate
    | Claim(found: Option<Ip>)
    | Mark(ip: Ip)
    | Unclaim(ip: Ip)
    | SetDefault(cpg: Cpg, fpg: Fpg)
    | DropDefault(cpg: Cpg, fpg: Fpg)
    | Release(cpg: Cpg, fpg: Fpg, ip: Ip)

  function Perform(meta: Option<Meta>, op: Op): Option<Meta> {
    match op
    case Generate => Some(Counted(meta))
    case Claim(found) => Some(if found.Some? then WithLocked(meta, found.value) else Initialized(meta))
    case Mark(ip) => if Marked(meta, ip).Some? then Marked(meta, ip) else meta
    case Unclaim(ip) => if meta.None? then None else Some(Unclaimed(meta.value, ip))
    case SetDefault(cpg, fpg) => if meta.None? then None else Some(AddDefault(meta.value, cpg, fpg))
    case DropDefault(cpg, fpg) => if meta.None? then None else Some(UndoDefault(meta.value, cpg, fpg))
    case Release(cpg, fpg, ip) =>
      if meta.Some? && Released(meta.value, cpg, fpg, ip).Some? then Released(meta.value, cpg, fpg, ip) else meta
  }

  /** No operation ever takes the counter back, and generating a name uses its number up. */
  lemma CounterKept(meta: Option<Meta>, op: Op)
    ensures NextNumber(Perform(meta, op)) >= NextNumber(meta)
    ensures op.Generate? ==> NextNumber(Perform(meta, op)) == NextNumber(meta) + 1
    ensures meta.Some? && !op.Generate? ==>
              Perform(meta, op).Some? && Perform(meta, op).value.counter == meta.value.counter
  {
  }

  ghost predicate Run(metas: seq<Option<Meta>>, ops: seq<Op>) {
    |metas| == |ops| + 1 && forall i :: 0 <= i < |ops| ==> metas[i + 1] == Perform(metas[i], ops[i])
  }

  lemma {:induction false} CounterGrows(metas: seq<Option<Meta>>, ops: seq<Op>, i: nat, j: nat)
    requires Run(metas, ops) && i <= j <= |ops|
    ensures NextNumber(metas[i]) <= NextNumber(metas[j])
    decreases j - i
  {
    if i < j {
      CounterGrows(metas, ops, i, j - 1);
      CounterKept(metas[j - 1], ops[j - 1]);
    }
  }

  /** The names generated from the `i`-th operation to the `j`-th. */
  function Generations(ops: seq<Op>, i: nat, j: nat): nat
    requires i <= j <= |ops|
  {
    if i == j then 0 else Generations(ops, i, j - 1) + if ops[j - 1].Generate? then 1 else 0
  }

  lemma NumberAfter(metas: seq<Option<Meta>>, ops: seq<Op>, k: nat)
    requires Run(metas, ops) && k < |ops| && metas[k].Some?
    ensures metas[k + 1].Some?
    ensures NextNumber(metas[k + 1]) == NextNumber(metas[k]) + if ops[k].Generate? then 1 else 0
  {
    CounterKept(metas[k], ops[k]);
  }

  /** Once there is metadata, the number goes up by exactly one with each name generated. */
  lemma {:induction false} NumbersCountUp(metas: seq<Option<Meta>>, ops: seq<Op>, i: nat, j: nat)
    requires Run(metas, ops) && i <= j <= |ops| && metas[i].Some?
    ensures metas[j].Some? && NextNumber(metas[j]) == NextNumber(metas[i]) + Generations(ops, i, j)
    decreases j - i
  {
    if i < j {
      NumbersCountUp(metas, ops, i, j - 1);
      NumberAfter(metas, ops, j - 1);
    }
  }

  /** Over any run of operations on one backend, no two executions generate the same name. */
  lemma FreshNames(metas: seq<Option<Meta>>, ops: seq<Op>, i: nat, j: nat)
    requires Run(metas, ops) && i < j < |ops| && ops[i].Generate? && ops[j].Generate?
    ensures FpgName(NextNumber(metas[i])) != FpgName(NextNumber(metas[j]))
  {
    CounterKept(metas[i], ops[i]);
    CounterGrows(metas, ops, i + 1, j);
    FpgNameInjective(NextNumber(metas[i]), NextNumber(metas[j]));
  }

  // ---- undoing a default FPG ----

  /** Undoing gives this CPG its list back; the whole map comes back exactly when the list was not
      empty before, or no other CPG had an entry. */
  lemma UndoDefaultRestores(m: Meta, cpg: Cpg, fpg: Fpg)
    requires fpg !in DefaultsOf(Some(m), cpg)
    requires m.defaultFpgs.Some? ==> forall c :: c in m.defaultFpgs.value ==> m.defaultFpgs.value[c] != []
    ensures var back := UndoDefault(AddDefault(m, cpg, fpg), cpg, fpg);
            && DefaultsOf(Some(back), cpg) == DefaultsOf(Some(m), cpg)
            && ((forall c :: DefaultsOf(Some(back), c) == DefaultsOf(Some(m), c)) <==>
                (DefaultsOf(Some(m), cpg) != [] || forall c :: c != cpg ==> DefaultsOf(Some(m), c) == []))
            && back.ipsInUse == m.ipsInUse && back.ipsLocked == m.ipsLocked && back.counter == m.counter
  {
    var list := DefaultsOf(Some(m), cpg);
    RemoveLast(list, fpg);
    var added := AddDefault(m, cpg, fpg);
    assert DefaultsOf(Some(added), cpg) == list + [fpg];
  }

  /** Deleting the FPG's last share gives every CPG its list back and frees one use of the IP, exactly
      when the IP is listed as in use and, if any CPG has defaults, this one does. */
  lemma ReleaseRestores(m: Meta, cpg: Cpg, fpg: Fpg, ip: Ip)
    requires fpg !in DefaultsOf(Some(m), cpg)
    ensures var r := Released(AddDefault(m, cpg, fpg), cpg, fpg, ip);
            && (r.Some? <==> ip in m.ipsInUse)
            && (r.Some? ==>
                  && (forall c :: DefaultsOf(r, c) == DefaultsOf(Some(m), c))
                  && multiset(r.value.ipsInUse) == multiset(m.ipsInUse) - multiset{ip}
                  && r.value.ipsLocked == m.ipsLocked && r.value.counter == m.counter)
    ensures Released(m, cpg, fpg, ip).None? <==>
              ip !in m.ipsInUse || (m.defaultFpgs.Some? && m.defaultFpgs.value != map[] && cpg !in m.defaultFpgs.value)
  {
    RemoveFirstMultiset(m.ipsInUse, ip);
    if ip in m.ipsInUse {
      AddedThenReleased(m, cpg, fpg, ip);
    }
  }

  lemma AddedThenReleased(m: Meta, cpg: Cpg, fpg: Fpg, ip: Ip)
    requires fpg !in DefaultsOf(Some(m), cpg) && ip in m.ipsInUse
    ensures var r := Released(AddDefault(m, cpg, fpg), cpg, fpg, ip);
            && r.Some? && r.value.ipsInUse == RemoveFirst(m.ipsInUse, ip)
            && r.value.ipsLocked == m.ipsLocked && r.value.counter == m.counter
            && forall c :: DefaultsOf(r, c) == DefaultsOf(Some(m), c)
  {
    var list, added := DefaultsOf(Some(m), cpg), AddDefault(m, cpg, fpg);
    AddedList(m, cpg, fpg);
    RemoveLast(list, fpg);
    assert fpg in added.defaultFpgs.value[cpg];
    var freed := m.(ipsInUse := RemoveFirst(m.ipsInUse, ip));
    assert Released(added, cpg, fpg, ip) == Some(freed.(defaultFpgs :=
      Some(if list == [] then added.defaultFpgs.value - {cpg} else added.defaultFpgs.value[cpg := list])));
  }

  lemma AddedList(m: Meta, cpg: Cpg, fpg: Fpg)
    ensures var added := AddDefault(m, cpg, fpg).defaultFpgs;
            && added.Some? && added.value != map[] && cpg in added.value
            && added.value[cpg] == DefaultsOf(Some(m), cpg) + [fpg]
            && forall c :: c != cpg ==> DefaultsOf(Some(AddDefault(m, cpg, fpg)), c) == DefaultsOf(Some(m), c)
  {
    assert cpg in AddDefault(m, cpg, fpg).defaultFpgs.value;
  }
}
