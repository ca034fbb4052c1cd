/**
 * `ConnectionPool` (txmongo/__init__.py, lines 249-323): a fixed number of
 * slots served in round robin, and a cache of database handles by name.
 */
module Pools {
  import opened Common
  import opened Hosts
  import opened Connections

  type DbId = nat

  const Scheme := "mongodb://"

  /** The URI with the `mongodb://` scheme put in front when it lacks one. */
  function WithScheme(uri: string): (r: string)
    ensures Scheme <= r
    ensures |r| >= |uri| && r[|r| - |uri|..] == uri
    ensures Scheme <= uri ==> r == uri
  {
    if Scheme <= uri then uri else Scheme + uri
  }

  /** Putting the scheme in front twice changes nothing more. */
  lemma WithSchemeIdempotent(uri: string)
    ensures WithScheme(WithScheme(uri)) == WithScheme(uri)
  {
  }

  /** The slot used after `index`: one further on, modulo the pool size. */
  function NextSlot(index: nat, size: nat): (r: nat)
    requires index < size
    ensures r == if index + 1 < size then index + 1 else 0
  {
    (index + 1) % size
  }

  /** The slots that `k` consecutive acquisitions use, starting from `start`. */
  function Visits(start: nat, size: nat, k: nat): (r: seq<nat>)
    requires start < size
    ensures |r| == k
    decreases k
  {
    if k == 0 then [] else [start] + Visits(NextSlot(start, size), size, k - 1)
  }

  /** Within one round, the `j`-th acquisition uses slot `start + j`, wrapping once. */
  lemma {:induction false} VisitAt(start: nat, size: nat, k: nat, j: nat)
    requires start < size && j < k <= size
    ensures Visits(start, size, k)[j] == if start + j < size then start + j else start + j - size
    decreases j
  {
    if j > 0 {
      var next := NextSlot(start, size);
      assert Visits(start, size, k)[j] == Visits(next, size, k - 1)[j - 1];
      VisitAt(next, size, k - 1, j - 1);
    }
  }

  /**
   * `size` consecutive acquisitions use every slot exactly once; starting
   * from slot 0 they use the slots in their order.
   */
  lemma RoundRobinUsesEachSlotOnce(start: nat, size: nat)
    requires start < size
    ensures forall s :: 0 <= s < size ==> s in Visits(start, size, size)
    ensures forall i, j :: 0 <= i < j < size ==> Visits(start, size, size)[i] != Visits(start, size, size)[j]
    ensures start == 0 ==> forall j :: 0 <= j < size ==> Visits(0, size, size)[j] == j
  {
    var v := Visits(start, size, size);
    forall j | 0 <= j < size
      ensures v[j] == if start + j < size then start + j else start + j - size
    {
      VisitAt(start, size, size, j);
    }
    forall s | 0 <= s < size
      ensures s in v
    {
      var j := if s >= start then s - start else s + size - start;
      assert v[j] == s;
    }
  }

  /** What `getprotocol` hands back: the ready instance, or a waiter on one slot. */
  datatype Acquired = Ready(proto: ProtoId) | Waiting(slot: nat, waiter: WaiterId)

  class ConnectionPool {
    /** The URI as given, with the scheme put in front if it lacked one. */
    const uri: string
    /** What the URI parser made of `uri`. */
    const parsed: Uri
    const poolSize: nat
    /** `__pool`: the slots, each a distinct `Connection`. */
    const slots: seq<Connection>

    var index: nat
    /** `_db_cache`: the database handle for each name looked up so far. */
    var dbCache: map<string, DbId>
    /** The identity the next new database handle receives. */
    var nextDb: DbId

    ghost predicate Valid()
      reads this, slots
    {
      poolSize >= 1 && |slots| == poolSize && index < poolSize &&
      (forall i, j :: 0 <= i < j < |slots| ==> slots[i] != slots[j]) &&
      (forall i :: 0 <= i < |slots| ==> slots[i].Valid() && slots[i].uri == parsed) &&
      (forall name :: name in dbCache ==> dbCache[name] < nextDb)
    }

    /** A slot as the constructor leaves it: fresh state, connector on the first node. */
    static ghost predicate Started(slot: Connection, parsed: Uri)
      reads slot
    {
      && slot.Valid() && slot.uri == parsed && !slot.useDiscovered
      && slot.connector == Some(parsed.nodelist[0])
      && slot.index == -1 && slot.discovered == [] && slot.waiters == [] && slot.fired == []
      && slot.nextWaiter == 0 && slot.instance == None && slot.calls == []
      && !slot.connected && !slot.reconnected && slot.continueTrying
    }

    /** One `_Connection(self, uri)` of the comprehension, given its connector on the first node. */
    static method StartSlot(parsed: Uri) returns (slot: Connection)
      requires |parsed.nodelist| >= 1
      ensures fresh(slot) && Started(slot, parsed)
    {
      slot := new Connection(parsed, false);
      slot.connector := Some(parsed.nodelist[0]);
    }

    /** The list comprehension that builds `pool_size` slots, each then connected to the first node. */
    static method StartSlots(parsed: Uri, poolSize: nat) returns (created: seq<Connection>)
      requires |parsed.nodelist| >= 1
      ensures |created| == poolSize
      ensures forall i, j :: 0 <= i < j < |created| ==> created[i] != created[j]
      ensures forall i :: 0 <= i < |created| ==> fresh(created[i]) && Started(created[i], parsed)
    {
      created := [];
      while |created| < poolSize
        invariant |created| <= poolSize
        invariant forall i, j :: 0 <= i < j < |created| ==> created[i] != created[j]
        invariant forall i :: 0 <= i < |created| ==> fresh(created[i]) && Started(created[i], parsed)
      {
        var slot := StartSlot(parsed);
        created := created + [slot];
      }
    }

    /**
     * `ConnectionPool(uri, pool_size)`: `pool_size` new slots, each with a
     * connector aimed at the first node of the URI.
     */
    constructor (uri: string, parsed: Uri, poolSize: nat)
      requires poolSize >= 1 && |parsed.nodelist| >= 1
      ensures Valid()
      ensures this.uri == WithScheme(uri) && this.parsed == parsed && this.poolSize == poolSize
      ensures index == 0 && dbCache == map[]
      ensures forall i :: 0 <= i < poolSize ==> fresh(slots[i]) && Started(slots[i], parsed)
    {
      this.uri := WithScheme(uri);
      this.parsed := parsed;
      this.poolSize := poolSize;
      index := 0;
      dbCache := map[];
      nextDb := 0;
      var created := StartSlots(parsed, poolSize);
      slots := created;
      assert forall i :: 0 <= i < |created| ==> Started(created[i], parsed);
    }

    /** `isconnected`: the `connected` flag of the slot next in turn, and no other. */
    method IsConnected() returns (b: bool)
      requires Valid()
      ensures b == slots[index].connected
    {
      b := slots[index].connected;
    }

    /**
     * `getprotocol`: takes the slot next in turn and moves the turn on; a
     * ready slot hands back its instance, otherwise the caller waits on that
     * slot alone.
     */
    method GetProtocol() returns (d: Acquired)
      requires Valid()
      modifies this`index, {slots[index]}`waiters, {slots[index]}`nextWaiter
      ensures Valid()
      ensures dbCache == old(dbCache) && nextDb == old(nextDb)
      ensures index == NextSlot(old(index), poolSize)
      ensures var slot := slots[old(index)];
              old(slot.instance).Some? ==> d == Ready(old(slot.instance).value) && unchanged(slot)
      ensures var slot := slots[old(index)];
              old(slot.instance).None? ==>
                && d == Waiting(old(index), old(slot.nextWaiter))
                && slot.waiters == old(slot.waiters) + [d.waiter]
                && slot.nextWaiter == old(slot.nextWaiter) + 1
                && slot.fired == old(slot.fired) && slot.instance == None
    {
      var connection := slots[index];
      var chosen := index;
      index := (index + 1) % poolSize;
      if connection.instance.Some? {
        return Ready(connection.instance.value);
      }
      var df := connection.NotifyReady();
      d := Waiting(chosen, df.waiter);
    }

    /**
     * `pool[name]`: the cached handle for a name seen before, unchanged
     * cache; otherwise a new handle, distinct from every cached one, added
     * under that name alone.
     */
    method GetDatabase(name: string) returns (db: DbId)
      requires Valid()
      modifies this`dbCache, this`nextDb
      ensures Valid()
      ensures name in old(dbCache) ==> db == old(dbCache)[name] && dbCache == old(dbCache)
      ensures name !in old(dbCache) ==>
                && db !in old(dbCache).Values
                && dbCache == old(dbCache)[name := db]
    {
      if name in dbCache {
        return dbCache[name];
      }
      db := nextDb;
      nextDb := nextDb + 1;
      dbCache := dbCache[name := db];
    }

    /**
     * `disconnect`: every slot stops retrying, and nothing else about the
     * slots changes: queued waiters are neither fired nor rejected.
     */
    method Disconnect()
      requires Valid()
      modifies slots`continueTrying
      ensures Valid()
      ensures forall i :: 0 <= i < |slots| ==> !slots[i].continueTrying
    {
      var i := 0;
      while i < |slots|
        invariant 0 <= i <= |slots|
        invariant Valid()
        invariant forall j :: 0 <= j < i ==> !slots[j].continueTrying
      {
        slots[i].StopTrying();
        i := i + 1;
      }
    }
  }
}
