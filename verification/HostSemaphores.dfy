// The per-host bulkhead: one counting semaphore per host, made on first use under a
// guard.  Each method is one stretch of the coroutines between two points where the
// event loop may switch.
module HostSemaphores {
  import Text

  // `free` permits; `host` is the name the semaphore was made for.
  datatype Semaphore = Semaphore(host: string, free: nat)

  // Semaphores have an identity, so two for one host would be visible.
  datatype Pool = Pool(byHost: map<string, nat>, semaphores: seq<Semaphore>, guarded: bool)

  function Known(p: Pool, host: string): bool {
    Text.Lower(host) in p.byHost
  }

  // The second look at the pool, under the guard: make one only if still missing.
  function Ensured(p: Pool, perHost: nat, host: string): Pool {
    if Known(p, host) then p.(guarded := false)
    else Pool(p.byHost[Text.Lower(host) := |p.semaphores|],
      p.semaphores + [Semaphore(Text.Lower(host), perHost)], false)
  }

  function Entered(p: Pool, sem: nat): Pool
    requires sem < |p.semaphores| && p.semaphores[sem].free > 0
  {
    p.(semaphores := p.semaphores[sem := p.semaphores[sem].(free := p.semaphores[sem].free - 1)])
  }

  function Left(p: Pool, sem: nat): Pool
    requires sem < |p.semaphores|
  {
    p.(semaphores := p.semaphores[sem := p.semaphores[sem].(free := p.semaphores[sem].free + 1)])
  }

  // The pool is one-to-one: a semaphore per listed host, and no other semaphores.
  ghost predicate OnePerHost(p: Pool) {
    && (forall host :: host in p.byHost ==>
      p.byHost[host] < |p.semaphores| && p.semaphores[p.byHost[host]].host == host)
    && (forall k :: 0 <= k < |p.semaphores| ==> p.semaphores[k].host in p.byHost && p.byHost[p.semaphores[k].host] == k)
  }

  // Hence no two semaphores of such a pool are for one host.
  lemma HostHasOneSemaphore(p: Pool, i: nat, j: nat)
    requires OnePerHost(p) && i < |p.semaphores| && j < |p.semaphores| && p.semaphores[i].host == p.semaphores[j].host
    ensures i == j
  {
    assert p.byHost[p.semaphores[i].host] == i;
  }

  class HostSemaphorePool {
    const perHost: nat
    var byHost: map<string, nat>
    var semaphores: seq<Semaphore>
    var guarded: bool

    constructor (perHost: nat)
      ensures this.perHost == perHost && State() == Pool(map[], [], false) && OnePerHost(State())
    {
      this.perHost, byHost, semaphores, guarded := perHost, map[], [], false;
    }

    function State(): Pool
      reads this
    {
      Pool(byHost, semaphores, guarded)
    }

    method Peek(host: string) returns (found: bool, sem: nat)
      requires OnePerHost(State())
      ensures found == Known(State(), host)
      ensures found ==> sem < |semaphores| && semaphores[sem].host == Text.Lower(host)
    {
      found, sem := false, 0;
      if Text.Lower(host) in byHost {
        found, sem := true, byHost[Text.Lower(host)];
      }
    }

    // Returns false when the guard is taken: the caller waits.
    method TakeGuard() returns (taken: bool)
      modifies `guarded
      ensures taken == !old(guarded) && guarded
    {
      taken := !guarded;
      guarded := true;
    }

    method GetOrCreate(host: string) returns (sem: nat)
      requires OnePerHost(State()) && guarded
      modifies this
      ensures State() == Ensured(old(State()), perHost, host) && OnePerHost(State())
      ensures sem < |semaphores| && semaphores[sem].host == Text.Lower(host)
      ensures semaphores[..|old(semaphores)|] == old(semaphores)
    {
      var key := Text.Lower(host);
      if key in byHost {
        sem := byHost[key];
      } else {
        sem := |semaphores|;
        semaphores := semaphores + [Semaphore(key, perHost)];
        byHost := byHost[key := sem];
      }
      guarded := false;
    }

    method TryEnter(sem: nat) returns (entered: bool)
      requires sem < |semaphores|
      modifies `semaphores
      ensures entered == (old(semaphores)[sem].free > 0)
      ensures State() == if entered then Entered(old(State()), sem) else old(State())
    {
      entered := semaphores[sem].free > 0;
      if entered {
        semaphores := semaphores[sem := semaphores[sem].(free := semaphores[sem].free - 1)];
      }
    }

    method Leave(sem: nat)
      requires sem < |semaphores|
      modifies `semaphores
      ensures State() == Left(old(State()), sem)
    {
      semaphores := semaphores[sem := semaphores[sem].(free := semaphores[sem].free + 1)];
    }
  }
}
