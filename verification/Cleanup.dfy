/** Removing what a previous run left in the hypervisor (cli/infrastructure/qemu/delete.go, util.go:80-97,
    qemu.go:123-125). Every call may fail; `faults` says which. */
module Cleanup {
  const NETWORK_NAME: string := "delegatio-net"
  const POOL_NAME: string := "delegatio-pool"
  const MASTER_PREFIX: string := "delegatio-master-"
  const WORKER_PREFIX: string := "delegatio-worker-"

  datatype Pool = Pool(isDir: bool, active: bool, volumes: set<string>)

  predicate IsOwnDomain(name: string) {
    MASTER_PREFIX <= name || WORKER_PREFIX <= name
  }

  predicate IsOwnPool(name: string, p: Pool) {
    name == POOL_NAME && p.isDir
  }

  /** Everything in the hypervisor that is not this project's. */
  datatype Foreign = Foreign(networks: set<string>, domains: set<string>, pools: map<string, Pool>)

  function ForeignPart(networks: set<string>, domains: set<string>, pools: map<string, Pool>): Foreign {
    Foreign(networks - {NETWORK_NAME},
            set d | d in domains && !IsOwnDomain(d),
            map n | n in pools && !IsOwnPool(n, pools[n]) :: pools[n])
  }

  /** Nothing of this project is left. */
  predicate Clean(networks: set<string>, domains: set<string>, pools: map<string, Pool>) {
    && NETWORK_NAME !in networks
    && (forall d :: d in domains ==> !IsOwnDomain(d))
    && (forall n :: n in pools ==> !IsOwnPool(n, pools[n]))
  }

  /** The two differ at most in the pool of the given name. */
  predicate SameExcept(before: map<string, Pool>, after: map<string, Pool>, name: string) {
    && (forall n :: n in after && n != name ==> n in before && after[n] == before[n])
    && (forall n :: n in before && n != name ==> n in after)
  }

  class Hypervisor {
    var networks: set<string>        // active networks
    var domains: set<string>         // active domains
    var pools: map<string, Pool>     // storage pools
    var storages: set<string>        // the pools whose storage exists on disk
    var calls: nat
    const faults: nat -> bool

    ghost function Others(): Foreign
      reads this
    {
      ForeignPart(networks, domains, pools)
    }

    /** None of the calls from number m up to number n failed. */
    ghost predicate Faultless(m: nat, n: nat)
    {
      forall i: nat :: m <= i < n ==> !faults(i)
    }

    constructor (networks: set<string>, domains: set<string>, pools: map<string, Pool>, storages: set<string>,
                 faults: nat -> bool)
      ensures this.networks == networks && this.domains == domains && this.pools == pools && this.storages == storages
      ensures this.faults == faults && calls == 0
    {
      this.networks, this.domains, this.pools, this.storages := networks, domains, pools, storages;
      this.faults, calls := faults, 0;
    }

    /** One call to the hypervisor. */
    method Call() returns (ok: bool)
      modifies this`calls
      ensures ok == !faults(old(calls)) && calls == old(calls) + 1
    {
      ok := !faults(calls);
      calls := calls + 1;
    }

    method DeleteNetwork() returns (ok: bool)
      modifies this`networks, this`calls
      ensures Others() == old(Others()) && networks <= old(networks) && calls > old(calls)
      ensures ok ==> NETWORK_NAME !in networks
      ensures ok <==> Faultless(old(calls), calls)
    {
      ok := Call();
      if !ok { return; }
      var nets := networks;
      while nets != {}
        invariant nets <= networks <= old(networks) && calls > old(calls) && Faultless(old(calls), calls)
        invariant networks - {NETWORK_NAME} == old(networks) - {NETWORK_NAME}
        invariant NETWORK_NAME in networks ==> NETWORK_NAME in nets
        decreases |nets|
      {
        var name :| name in nets;
        nets := nets - {name};
        ok := Call();
        if !ok { return; }
        if name != NETWORK_NAME { continue; }
        ok := Call();
        if !ok { return; }
        networks := networks - {name};
      }
      ok := true;
    }

    method DeleteDomains() returns (ok: bool)
      modifies this`domains, this`calls
      ensures Others() == old(Others()) && domains <= old(domains) && calls > old(calls)
      ensures ok ==> forall d :: d in domains ==> !IsOwnDomain(d)
      ensures ok <==> Faultless(old(calls), calls)
    {
      ok := Call();
      if !ok { return; }
      var doms := domains;
      while doms != {}
        invariant doms <= domains <= old(domains) && calls > old(calls) && Faultless(old(calls), calls)
        invariant forall d :: d in old(domains) && !IsOwnDomain(d) ==> d in domains
        invariant forall d :: d in domains && IsOwnDomain(d) ==> d in doms
        decreases |doms|
      {
        var name :| name in doms;
        doms := doms - {name};
        ok := Call();
        if !ok { return; }
        if !(MASTER_PREFIX <= name) && !(WORKER_PREFIX <= name) { continue; }
        ok := Call();
        if !ok { return; }
        domains := domains - {name};
      }
      ok := true;
    }

    /** Deletes every volume of an active pool; stops at the first failure. */
    method DeleteVolumesFromPool(name: string) returns (ok: bool)
      requires name in pools && pools[name].active
      modifies this`pools, this`calls
      ensures calls > old(calls) && (ok <==> Faultless(old(calls), calls))
      ensures name in pools && pools == old(pools)[name := old(pools)[name].(volumes := pools[name].volumes)]
      ensures ok ==> pools[name].volumes == {}
    {
      ok := Call();
      if !ok { return; }
      var volumes := pools[name].volumes;
      while volumes != {}
        invariant calls > old(calls) && Faultless(old(calls), calls)
        invariant name in pools && volumes == pools[name].volumes
        invariant pools == old(pools)[name := old(pools)[name].(volumes := pools[name].volumes)]
        decreases |volumes|
      {
        var v :| v in volumes;
        ok := Call();
        if !ok { return; }
        volumes := volumes - {v};
        pools := pools[name := pools[name].(volumes := volumes)];
      }
      ok := true;
    }

    // Pool calls with what libvirt requires of them: only an active pool can be destroyed, only an
    // inactive one deleted or undefined, and deleting needs an empty pool.
    method DestroyPool(name: string) returns (ok: bool)
      requires name in pools && pools[name].active
      modifies this`pools, this`calls
      ensures ok == !faults(old(calls)) && calls == old(calls) + 1
      ensures pools == if ok then old(pools)[name := old(pools)[name].(active := false)] else old(pools)
    {
      ok := Call();
      if ok { pools := pools[name := pools[name].(active := false)]; }
    }

    method DeletePoolStorage(name: string) returns (ok: bool)
      requires name in pools && !pools[name].active && pools[name].volumes == {}
      modifies this`storages, this`calls
      ensures ok == !faults(old(calls)) && calls == old(calls) + 1
      ensures storages == if ok then old(storages) - {name} else old(storages)
    {
      ok := Call();
      if ok { storages := storages - {name}; }
    }

    method UndefinePool(name: string) returns (ok: bool)
      requires name in pools && !pools[name].active
      modifies this`pools, this`calls
      ensures ok == !faults(old(calls)) && calls == old(calls) + 1
      ensures pools == if ok then old(pools) - {name} else old(pools)
    {
      ok := Call();
      if ok { pools := pools - {name}; }
    }

    /** The body of the loop for this project's pool: an active one loses its storage as well, an inactive one
        is only undefined. */
    method RemovePool(name: string) returns (ok: bool)
      requires name in pools
      modifies this`pools, this`storages, this`calls
      ensures old(storages) - {name} <= storages <= old(storages)
      ensures ok ==> storages == if old(pools)[name].active then old(storages) - {name} else old(storages)
      ensures calls > old(calls) && (ok <==> Faultless(old(calls), calls))
      ensures SameExcept(old(pools), pools, name)
      ensures name in pools ==> pools[name].isDir == old(pools)[name].isDir
      ensures ok ==> name !in pools
    {
      ok := Call();
      if !ok { return; }
      if pools[name].active {
        ok := DeleteVolumesFromPool(name);
        if !ok { return; }
        ok := DestroyPool(name);
        if !ok { return; }
        ok := DeletePoolStorage(name);
        if !ok { return; }
      }
      ok := UndefinePool(name);
    }

    // The body of the loop over the dir pools.
    method VisitPool(name: string, ghost before: map<string, Pool>, ghost stored: set<string>, ghost names: set<string>)
      returns (ok: bool)
      requires name in names && Remaining(before, pools, names) && StorageLeft(before, stored, storages, names)
      requires POOL_NAME in names ==> pools == before
      modifies this`pools, this`storages, this`calls
      ensures calls > old(calls) && (ok <==> Faultless(old(calls), calls))
      ensures OnlyOwnPoolDiffers(before, pools) && stored - {POOL_NAME} <= storages <= stored
      ensures ok ==> Remaining(before, pools, names - {name}) && StorageLeft(before, stored, storages, names - {name})
      ensures ok && POOL_NAME in names - {name} ==> pools == before
    {
      ghost var now, there := pools, storages;
      ok := Call();
      if !ok { return; }
      if name == POOL_NAME {
        ok := RemovePool(name);
        if !ok {
          PartlyRemoved(before, now, pools, names);
          return;
        }
      }
      OneFewer(before, now, pools, names, name);
      StorageOneFewer(before, stored, there, storages, names, name);
    }

    method DeletePool() returns (ok: bool)
      modifies this`pools, this`storages, this`calls
      ensures old(storages) - {POOL_NAME} <= storages <= old(storages)
      ensures ok && POOL_NAME in old(pools) && IsOwnPool(POOL_NAME, old(pools)[POOL_NAME]) && old(pools)[POOL_NAME].active ==>
                POOL_NAME !in storages
      ensures ok && POOL_NAME in old(pools) && !old(pools)[POOL_NAME].active ==> storages == old(storages)
      ensures Others() == old(Others()) && calls > old(calls)
      ensures ok ==> forall n :: n in pools ==> !IsOwnPool(n, pools[n])
      ensures ok <==> Faultless(old(calls), calls)
    {
      ok := Call();
      if !ok { return; }
      var names := set n | n in pools && pools[n].isDir;
      while names != {}
        invariant calls > old(calls) && Faultless(old(calls), calls)
        invariant Remaining(old(pools), pools, names)
        invariant POOL_NAME in names ==> pools == old(pools)
        invariant StorageLeft(old(pools), old(storages), storages, names)
        decreases |names|
      {
        var name :| name in names;
        ok := VisitPool(name, old(pools), old(storages), names);
        if !ok { SamePools(old(networks), old(domains), old(pools), pools); return; }
        names := names - {name};
      }
      SamePools(old(networks), old(domains), old(pools), pools);
      ok := true;
    }

    /** Runs the three deletions whatever each of them returns. From any state: nothing foreign changes,
        even when calls fail; it succeeds exactly when none of its calls failed; and success means nothing
        of this project is left. */
    method TerminateInfrastructure() returns (ok: bool)
      modifies this
      ensures Others() == old(Others()) && calls >= old(calls) + 3
      ensures ok ==> Clean(networks, domains, pools)
      ensures ok ==> forall suffix: string ::
                "delegatio-master-" + suffix !in domains && "delegatio-worker-" + suffix !in domains
      ensures ok ==> "delegatio-net" !in networks
                     && ("delegatio-pool" in pools ==> !pools["delegatio-pool"].isDir)
      ensures forall n :: n in old(networks) && n != "delegatio-net" ==> n in networks
      ensures forall d :: d in old(domains) && !("delegatio-master-" <= d) && !("delegatio-worker-" <= d) ==> d in domains
      ensures forall n :: n in old(pools) && (n != "delegatio-pool" || !old(pools)[n].isDir) ==>
                n in pools && pools[n] == old(pools)[n]
      ensures old(storages) - {"delegatio-pool"} <= storages <= old(storages)
      ensures ok && "delegatio-pool" in old(pools) && old(pools)["delegatio-pool"].isDir && old(pools)["delegatio-pool"].active ==>
                "delegatio-pool" !in storages
      ensures ok <==> Faultless(old(calls), calls)
    {
      ghost var nets, doms, before := networks, domains, pools;
      var netOk := DeleteNetwork();
      ghost var c1 := calls;
      var domOk := DeleteDomains();
      ghost var c2 := calls;
      var poolOk := DeletePool();
      ok := netOk && domOk && poolOk;
      assert Faultless(old(calls), calls) <==> Faultless(old(calls), c1) && Faultless(c1, c2) && Faultless(c2, calls);
      ForeignStays(nets, doms, before, networks, domains, pools);
      if ok {
        OwnIsGone(networks, domains, pools);
      }
    }
  }

  /** What an unchanged foreign part means, name by name. */
  lemma ForeignStays(networks: set<string>, domains: set<string>, pools: map<string, Pool>,
                     networks': set<string>, domains': set<string>, pools': map<string, Pool>)
    requires ForeignPart(networks, domains, pools) == ForeignPart(networks', domains', pools')
    ensures forall n :: n in networks && n != "delegatio-net" ==> n in networks'
    ensures forall d :: d in domains && !("delegatio-master-" <= d) && !("delegatio-worker-" <= d) ==> d in domains'
    ensures forall n :: n in pools && (n != "delegatio-pool" || !pools[n].isDir) ==> n in pools' && pools'[n] == pools[n]
  {
    var f, f' := ForeignPart(networks, domains, pools), ForeignPart(networks', domains', pools');
    forall n | n in networks && n != "delegatio-net" ensures n in networks' {
      assert n in f.networks && n in f'.networks;
    }
    forall d | d in domains && !("delegatio-master-" <= d) && !("delegatio-worker-" <= d) ensures d in domains' {
      assert d in f.domains && d in f'.domains;
    }
    forall n | n in pools && (n != "delegatio-pool" || !pools[n].isDir) ensures n in pools' && pools'[n] == pools[n] {
      assert n in f.pools && n in f'.pools;
    }
  }

  /** What a clean hypervisor means, name by name. */
  lemma OwnIsGone(networks: set<string>, domains: set<string>, pools: map<string, Pool>)
    requires Clean(networks, domains, pools)
    ensures "delegatio-net" !in networks && ("delegatio-pool" in pools ==> !pools["delegatio-pool"].isDir)
    ensures forall suffix: string :: "delegatio-master-" + suffix !in domains && "delegatio-worker-" + suffix !in domains
  {
    forall suffix: string
      ensures "delegatio-master-" + suffix !in domains && "delegatio-worker-" + suffix !in domains
    {
      assert MASTER_PREFIX <= "delegatio-master-" + suffix && WORKER_PREFIX <= "delegatio-worker-" + suffix;
    }
  }

  /** Nothing but this project's dir pool differs, and it is still the same kind of pool if it is there. */
  predicate OnlyOwnPoolDiffers(before: map<string, Pool>, after: map<string, Pool>) {
    && SameExcept(before, after, POOL_NAME)
    && (POOL_NAME in after ==> POOL_NAME in before && after[POOL_NAME].isDir == before[POOL_NAME].isDir)
    && (POOL_NAME in before && !before[POOL_NAME].isDir ==> after == before)
  }

  /** The loop's state: `names` are the dir pools not yet looked at. */
  predicate Remaining(before: map<string, Pool>, after: map<string, Pool>, names: set<string>) {
    && OnlyOwnPoolDiffers(before, after)
    && (forall n :: n in names ==> n in after && after[n].isDir)
    && (POOL_NAME in after && after[POOL_NAME].isDir ==> POOL_NAME in names)
  }

  /** The storage of this project's pool is there until the pool has been looked at, and then only if the pool
      was not an active dir pool; other storage stays. */
  predicate StorageLeft(before: map<string, Pool>, stored: set<string>, storages: set<string>, names: set<string>) {
    && stored - {POOL_NAME} <= storages <= stored
    && (POOL_NAME in names ==> storages == stored && POOL_NAME in before)
    && (POOL_NAME !in names && POOL_NAME in before && before[POOL_NAME].isDir && before[POOL_NAME].active ==>
          POOL_NAME !in storages)
    && (POOL_NAME in before && !before[POOL_NAME].active ==> storages == stored)
  }

  lemma StorageOneFewer(before: map<string, Pool>, stored: set<string>, storages: set<string>, storages': set<string>,
                        names: set<string>, name: string)
    requires StorageLeft(before, stored, storages, names) && name in names
    requires name != POOL_NAME ==> storages' == storages
    requires name == POOL_NAME ==> storages' == if before[POOL_NAME].active then storages - {POOL_NAME} else storages
    ensures StorageLeft(before, stored, storages', names - {name})
  {}

  lemma PartlyRemoved(before: map<string, Pool>, pools: map<string, Pool>, pools': map<string, Pool>, names: set<string>)
    requires Remaining(before, pools, names) && POOL_NAME in names && SameExcept(pools, pools', POOL_NAME)
    requires POOL_NAME in pools' ==> pools'[POOL_NAME].isDir == pools[POOL_NAME].isDir
    ensures OnlyOwnPoolDiffers(before, pools')
  {
    assert pools[POOL_NAME].isDir;
  }

  lemma OneFewer(before: map<string, Pool>, pools: map<string, Pool>, pools': map<string, Pool>,
                 names: set<string>, name: string)
    requires Remaining(before, pools, names) && name in names
    requires name != POOL_NAME ==> pools' == pools
    requires name == POOL_NAME ==> SameExcept(pools, pools', POOL_NAME) && POOL_NAME !in pools'
    ensures Remaining(before, pools', names - {name})
  {
    if name == POOL_NAME {
      PartlyRemoved(before, pools, pools', names);
    }
  }

  lemma SamePools(networks: set<string>, domains: set<string>, before: map<string, Pool>, after: map<string, Pool>)
    requires OnlyOwnPoolDiffers(before, after)
    ensures ForeignPart(networks, domains, after) == ForeignPart(networks, domains, before)
  {
    assert forall n :: n in after && n != POOL_NAME ==> n in before;
    assert forall n :: n in before && n != POOL_NAME ==> n in after;
  }

  /** Two runs, one after the other: each makes calls of its own and succeeds exactly when none of those
      failed. Wherever the first one failed, a second one without failing calls removes everything of this
      project, and nothing else has changed since before the first. */
  method RetryConverges(h: Hypervisor) returns (first: bool, second: bool, ghost retriedAt: nat)
    modifies h
    ensures h.Others() == old(h.Others())
    ensures old(h.calls) + 3 <= retriedAt && retriedAt + 3 <= h.calls
    ensures first <==> h.Faultless(old(h.calls), retriedAt)
    ensures second <==> h.Faultless(retriedAt, h.calls)
    ensures second ==> Clean(h.networks, h.domains, h.pools)
  {
    first := h.TerminateInfrastructure();
    retriedAt := h.calls;
    second := h.TerminateInfrastructure();
  }
}
