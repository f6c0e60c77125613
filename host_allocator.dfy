// Host-side object pools and their registry: the id-issuing HostAllocator of
// src/impl/vtek_host_allocator.hpp, the vector-backed HostAllocator of
// src/impl/vtek_host_allocator.h and include/vtek/vtek_host_allocator.h, and
// the registry of src/vtek_host_allocator.cpp that reports allocators with
// unfreed objects.
module HostAllocators {

  /**
   * The registry of allocators (HostAllocatorStorage behind the static
   * pointer sStorage). `initialized` is false while sStorage is null; an
   * allocator is recorded by its title.
   */
  class HostAllocatorRegistry {
    var initialized: bool
    var allocators: seq<string>

    /** The static pointer starts out null. */
    constructor()
      ensures !initialized && allocators == []
    {
      initialized := false;
      allocators := [];
    }

    /** host_allocator_initialize: a new, empty registry; always true. */
    method Initialize() returns (ok: bool)
      modifies this
      ensures ok && initialized && allocators == []
    {
      initialized := true;
      allocators := [];
      ok := true;
    }

    /**
     * host_allocator_register_allocator: the allocator is appended after
     * those registered before. The registry must have been initialised, as
     * the source dereferences it unchecked.
     */
    method Register(title: string)
      requires initialized
      modifies this
      ensures initialized && allocators == old(allocators) + [title]
    {
      allocators := allocators + [title];
    }

    /**
     * host_allocator_destroy, given the number of live objects each
     * registered allocator reports: nothing happens without a registry;
     * otherwise one warning per allocator with objects left, in registration
     * order, and the registry is emptied and released.
     */
    method Destroy(counts: seq<int>) returns (warned: seq<string>)
      requires initialized ==> |counts| == |allocators|
      modifies this
      ensures !old(initialized) ==> warned == [] && allocators == old(allocators)
      ensures old(initialized) ==> warned == Unfreed(old(allocators), counts)
      ensures !initialized
      ensures old(initialized) ==> allocators == []
    {
      warned := [];
      if !initialized {
        return;
      }
      var i := 0;
      while i < |allocators|
        invariant 0 <= i <= |allocators|
        invariant warned == Unfreed(allocators[..i], counts[..i])
      {
        assert allocators[..i + 1][..i] == allocators[..i];
        assert counts[..i + 1][..i] == counts[..i];
        if counts[i] > 0 {
          warned := warned + [allocators[i]];
        }
        i := i + 1;
      }
      assert allocators[..i] == allocators && counts[..i] == counts;
      allocators := [];
      initialized := false;
    }
  }

  /** The titles of the allocators that report live objects, in order. */
  function Unfreed(titles: seq<string>, counts: seq<int>): seq<string>
    requires |titles| == |counts|
  {
    if titles == [] then []
    else
      var n := |titles| - 1;
      Unfreed(titles[..n], counts[..n]) + (if counts[n] > 0 then [titles[n]] else [])
  }

  /**
   * An allocator's title is warned about exactly when some allocator of that
   * title reports live objects, and there are never more warnings than
   * allocators.
   */
  lemma {:induction false} UnfreedMembership(titles: seq<string>, counts: seq<int>, t: string)
    requires |titles| == |counts|
    ensures t in Unfreed(titles, counts) <==>
      exists i :: 0 <= i < |titles| && titles[i] == t && counts[i] > 0
    ensures |Unfreed(titles, counts)| <= |titles|
  {
    if titles != [] {
      var n := |titles| - 1;
      UnfreedMembership(titles[..n], counts[..n], t);
      if exists i :: 0 <= i < n && titles[..n][i] == t && counts[..n][i] > 0 {
        var i :| 0 <= i < n && titles[..n][i] == t && counts[..n][i] > 0;
        assert titles[i] == t && counts[i] > 0;
      }
      if exists i :: 0 <= i < |titles| && titles[i] == t && counts[i] > 0 {
        var i :| 0 <= i < |titles| && titles[i] == t && counts[i] > 0;
        if i < n {
          assert titles[..n][i] == t && counts[..n][i] > 0;
        }
      }
    }
  }

  /**
   * HostAllocator<T> with a std::map pool: objects are keyed by ids issued
   * from the counter `next`, which only grows.
   */
  class IdHostAllocator<T> {
    const title: string
    /** The value a default-constructed T{} has. */
    const defaultValue: T
    var pool: map<nat, T>
    var next: nat

    /** Every live id was issued before the counter's current value. */
    ghost predicate Valid()
      reads this
    {
      forall id :: id in pool ==> id < next
    }

    /**
     * The constructor: an empty pool and a counter at 0; the allocator is
     * registered with the (initialised) registry.
     */
    constructor(title: string, defaultValue: T, registry: HostAllocatorRegistry)
      requires registry.initialized
      modifies registry
      ensures this.title == title && this.defaultValue == defaultValue
      ensures pool == map[] && next == 0 && Valid()
      ensures registry.initialized && registry.allocators == old(registry.allocators) + [title]
    {
      this.title := title;
      this.defaultValue := defaultValue;
      pool := map[];
      next := 0;
      new;
      registry.Register(title);
    }

    /** GetNumAllocations: the number of live objects. */
    function NumAllocations(): nat
      reads this
    {
      |pool|
    }

    /** There are never more live objects than ids issued. */
    lemma NumAllocationsBound()
      requires Valid()
      ensures NumAllocations() <= next
    {
      PoolBound(pool, next);
    }

    /**
     * alloc: a default object stored under the next id. Because every live id
     * is below the counter, the insertion always takes place: the id is new,
     * the pool grows by one and the counter moves past it.
     */
    method Alloc() returns (id: nat, inserted: bool)
      requires Valid()
      modifies this
      ensures inserted && id == old(next) && id !in old(pool)
      ensures pool == old(pool)[id := defaultValue] && |pool| == |old(pool)| + 1
      ensures next == old(next) + 1
      ensures Valid()
    {
      id := next;
      if id !in pool {
        pool := pool[id := defaultValue];
        next := next + 1;
        inserted := true;
      } else {
        assert false;
        inserted := false;
      }
    }

    /**
     * free: the object with that id is removed; an id that is not live is
     * reported as an invalid free and nothing changes. The counter is kept,
     * so the id is never issued again.
     */
    method Free(id: nat) returns (invalidFree: bool)
      requires Valid()
      modifies this
      ensures invalidFree <==> id !in old(pool)
      ensures pool == old(pool) - {id} && next == old(next)
      ensures Valid()
    {
      invalidFree := id !in pool;
      pool := pool - {id};
    }

    /** clear: no live objects; the counter is kept. */
    method Clear()
      requires Valid()
      modifies this
      ensures pool == map[] && next == old(next)
      ensures Valid()
    {
      pool := map[];
    }
  }

  /** A map whose keys are all below `next` has at most `next` entries. */
  lemma PoolBound<T>(pool: map<nat, T>, next: nat)
    requires forall id :: id in pool ==> id < next
    ensures |pool| <= next
  {
    IdsBound(pool.Keys, next);
  }

  /** A set of naturals all below `next` has at most `next` elements. */
  lemma {:induction false} IdsBound(ids: set<nat>, next: nat)
    requires forall id :: id in ids ==> id < next
    ensures |ids| <= next
    decreases next
  {
    if next > 0 {
      var smaller := ids - {next - 1};
      IdsBound(smaller, next - 1);
    }
  }

  /**
   * HostAllocator<T> with a std::vector pool. The src/impl/vtek_host_allocator.h
   * version registers itself on construction; the
   * include/vtek/vtek_host_allocator.h version does not. A pointer returned
   * by alloc is modelled as the index of its element. `allocsSinceClear`
   * counts the allocs since construction or the last clear.
   */
  class VectorHostAllocator<T> {
    const title: string
    const defaultValue: T
    var pool: seq<T>
    ghost var allocsSinceClear: nat

    /** The pool holds one object per alloc since the last clear. */
    ghost predicate Valid()
      reads this
    {
      |pool| == allocsSinceClear
    }

    /** The src/impl constructor: an empty pool, registered with the registry. */
    constructor Registered(title: string, defaultValue: T, registry: HostAllocatorRegistry)
      requires registry.initialized
      modifies registry
      ensures this.title == title && this.defaultValue == defaultValue
      ensures pool == [] && Valid()
      ensures registry.initialized && registry.allocators == old(registry.allocators) + [title]
    {
      this.title := title;
      this.defaultValue := defaultValue;
      pool := [];
      allocsSinceClear := 0;
      new;
      registry.Register(title);
    }

    /** The include/vtek constructor: an empty pool, not registered anywhere. */
    constructor Unregistered(title: string, defaultValue: T)
      ensures this.title == title && this.defaultValue == defaultValue
      ensures pool == [] && Valid()
    {
      this.title := title;
      this.defaultValue := defaultValue;
      pool := [];
      allocsSinceClear := 0;
    }

    /** GetNumAllocations: the number of objects in the pool. */
    function NumAllocations(): (n: nat)
      reads this
      ensures Valid() ==> n == allocsSinceClear
    {
      |pool|
    }

    /** alloc: one default object is appended; the result refers to it. */
    method Alloc() returns (index: nat)
      requires Valid()
      modifies this
      ensures pool == old(pool) + [defaultValue]
      ensures index == |old(pool)| && pool[index] == defaultValue
      ensures allocsSinceClear == old(allocsSinceClear) + 1
      ensures Valid()
    {
      pool := pool + [defaultValue];
      allocsSinceClear := allocsSinceClear + 1;
      index := |pool| - 1;
    }

    /** free: nothing is removed, whatever the pointer. */
    method Free(index: nat)
      ensures unchanged(this)
    {
    }

    /** clear: the pool is emptied. */
    method Clear()
      modifies this
      ensures pool == [] && allocsSinceClear == 0
      ensures Valid()
    {
      pool := [];
      allocsSinceClear := 0;
    }
  }
}
