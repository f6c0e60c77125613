// vtek::DescriptorPool (src/vtek_descriptor_pool.cpp): creation from the
// requested descriptor types, allocation of descriptor sets, and the guard
// on freeing one set.
module DescriptorPools {
  import opened Wrappers
  import opened Vk
  import opened VulkanVersion
  import opened DescriptorTypes
  import opened DescriptorSets

  /** VK_DESCRIPTOR_POOL_CREATE_FREE_DESCRIPTOR_SET_BIT. */
  const VK_DESCRIPTOR_POOL_CREATE_FREE_DESCRIPTOR_SET_BIT: bv32 := 0x1
  /** VK_DESCRIPTOR_POOL_CREATE_UPDATE_AFTER_BIND_BIT. */
  const VK_DESCRIPTOR_POOL_CREATE_UPDATE_AFTER_BIND_BIT: bv32 := 0x2

  /** vtek::DescriptorPoolType: a descriptor type and a `uint32_t` count. */
  datatype DescriptorPoolType = DescriptorPoolType(descriptorType: DescriptorType, count: nat)

  /**
   * vtek::DescriptorPoolInfo, with the requested types as the (type, count)
   * pairs the creation code reads from them.
   */
  datatype DescriptorPoolInfo = DescriptorPoolInfo(
    allowIndividualFree: bool, allowUpdateAfterBind: bool,
    descriptorTypes: seq<DescriptorPoolType>)

  /** VkDescriptorPoolSize. */
  datatype PoolSize = PoolSize(descriptorType: nat, descriptorCount: nat)

  /** The parts of VkDescriptorPoolCreateInfo the creation code fills in. */
  datatype PoolCreateInfo = PoolCreateInfo(flags: bv32, maxSets: nat, poolSizes: seq<PoolSize>)

  /** The create flags the two requests call for. */
  function PoolFlags(allowIndividualFree: bool, allowUpdateAfterBind: bool): bv32
  {
    (if allowIndividualFree then VK_DESCRIPTOR_POOL_CREATE_FREE_DESCRIPTOR_SET_BIT else 0) |
    (if allowUpdateAfterBind then VK_DESCRIPTOR_POOL_CREATE_UPDATE_AFTER_BIND_BIT else 0)
  }

  /** Each request sets its own bit and no other bit is set. */
  lemma PoolFlagsMeaning(a: bool, b: bool)
    ensures (PoolFlags(a, b) & VK_DESCRIPTOR_POOL_CREATE_FREE_DESCRIPTOR_SET_BIT != 0) <==> a
    ensures (PoolFlags(a, b) & VK_DESCRIPTOR_POOL_CREATE_UPDATE_AFTER_BIND_BIT != 0) <==> b
    ensures PoolFlags(a, b) & !0x3 == 0
  {
    if a {
      if b { assert PoolFlags(a, b) == 0x3; } else { assert PoolFlags(a, b) == 0x1; }
    } else {
      if b { assert PoolFlags(a, b) == 0x2; } else { assert PoolFlags(a, b) == 0x0; }
    }
  }

  /** The sum of the requested counts, as mathematical integers. */
  function CountSum(types: seq<DescriptorPoolType>): nat
  {
    if types == [] then 0 else CountSum(types[..|types| - 1]) + types[|types| - 1].count
  }

  /** Every requested type resolves on the device. */
  predicate AllTypesResolve(types: seq<DescriptorPoolType>, v: Version)
  {
    forall i :: 0 <= i < |types| ==> GetDescriptorType(types[i].descriptorType, v).Some?
  }

  /** The pool size a resolvable requested type becomes. */
  function PoolSizeFor(t: DescriptorPoolType, v: Version): PoolSize
    requires GetDescriptorType(t.descriptorType, v).Some?
  {
    PoolSize(GetDescriptorType(t.descriptorType, v).value, t.count)
  }

  /** The pool sizes and the maxSets value the creation loop has built. */
  datatype Accumulated = Accumulated(poolSizes: seq<PoolSize>, maxSets: nat)

  /**
   * What the creation loop builds from the requested types: one pool size
   * per type and the running `uint32_t` total of the counts, or nothing once
   * a type does not resolve.
   */
  function Accumulate(types: seq<DescriptorPoolType>, v: Version): Option<Accumulated>
  {
    if types == [] then Some(Accumulated([], 0))
    else
      var prev := Accumulate(types[..|types| - 1], v);
      var last := types[|types| - 1];
      if prev.None? || GetDescriptorType(last.descriptorType, v).None? then None
      else Some(Accumulated(prev.value.poolSizes + [PoolSizeFor(last, v)],
                            U32(prev.value.maxSets + last.count)))
  }

  /**
   * The loop succeeds exactly when every type resolves; it then yields one
   * pool size per type, in order, and maxSets is the sum of the counts
   * wrapped to `uint32_t`.
   */
  lemma {:induction false} AccumulateMeaning(types: seq<DescriptorPoolType>, v: Version)
    ensures Accumulate(types, v).Some? <==> AllTypesResolve(types, v)
    ensures Accumulate(types, v).Some? ==>
      |Accumulate(types, v).value.poolSizes| == |types| &&
      (forall i :: 0 <= i < |types| ==>
        Accumulate(types, v).value.poolSizes[i] == PoolSizeFor(types[i], v)) &&
      Accumulate(types, v).value.maxSets == U32(CountSum(types))
  {
    if types != [] {
      var prefix := types[..|types| - 1];
      AccumulateMeaning(prefix, v);
      if Accumulate(types, v).Some? {
        U32AddWrap(CountSum(prefix), types[|types| - 1].count);
      }
      assert AllTypesResolve(types, v) <==>
        AllTypesResolve(prefix, v) && GetDescriptorType(types[|types| - 1].descriptorType, v).Some?;
    }
  }

  /** Once a prefix fails to resolve, the whole list does. */
  lemma {:induction false} NoneStaysNone(types: seq<DescriptorPoolType>, n: nat, v: Version)
    requires n <= |types| && Accumulate(types[..n], v).None?
    ensures Accumulate(types, v).None?
    decreases |types| - n
  {
    if n < |types| {
      assert types[..n + 1][..n] == types[..n];
      NoneStaysNone(types, n + 1, v);
    } else {
      assert types[..n] == types;
    }
  }

  class DescriptorPool {
    var vulkanHandle: nat
    var individualFree: bool
    var updateAfterBind: bool

    constructor()
      ensures vulkanHandle == 0 && !individualFree && !updateAfterBind
    {
      vulkanHandle := 0;
      individualFree := false;
      updateAfterBind := false;
    }

    /** descriptor_pool_get_handle. */
    function Handle(): (h: nat)
      reads this
      ensures h == vulkanHandle
    {
      vulkanHandle
    }

    /**
     * descriptor_pool_alloc_set: one set is allocated with the layout; when
     * vkAllocateDescriptorSets fails there is no set, otherwise a new set
     * holding the handle Vulkan produced and nothing queued.
     */
    method AllocSet(result: VkResult, setHandle: nat) returns (descriptorSet: DescriptorSet?)
      ensures result != VK_SUCCESS ==> descriptorSet == null
      ensures result == VK_SUCCESS ==>
        descriptorSet != null && fresh(descriptorSet) && descriptorSet.vulkanHandle == setHandle &&
        descriptorSet.writeDescriptors == [] && descriptorSet.bufferInfos == [] && descriptorSet.imageInfos == [] &&
        descriptorSet.Valid()
    {
      if result != VK_SUCCESS {
        return null;
      }
      descriptorSet := new DescriptorSet(setHandle);
    }
  }

  /** The flag composition at the start of descriptor_pool_create. */
  method PoolCreateFlags(info: DescriptorPoolInfo) returns (flags: bv32)
    ensures flags == PoolFlags(info.allowIndividualFree, info.allowUpdateAfterBind)
  {
    flags := 0;
    if info.allowIndividualFree {
      flags := flags | VK_DESCRIPTOR_POOL_CREATE_FREE_DESCRIPTOR_SET_BIT;
    }
    if info.allowUpdateAfterBind {
      flags := flags | VK_DESCRIPTOR_POOL_CREATE_UPDATE_AFTER_BIND_BIT;
    }
  }

  /**
   * The creation loop and flags of descriptor_pool_create: nothing when a
   * requested type does not resolve; otherwise one pool size per requested
   * type, in order, maxSets the `uint32_t` sum of the counts, and the flags
   * of the two requests.
   */
  method PoolCreateInfoFor(info: DescriptorPoolInfo, v: Version) returns (r: Option<PoolCreateInfo>)
    ensures r.Some? <==> Accumulate(info.descriptorTypes, v).Some?
    ensures r.Some? ==> r.value == PoolCreateInfo(
      PoolFlags(info.allowIndividualFree, info.allowUpdateAfterBind),
      Accumulate(info.descriptorTypes, v).value.maxSets,
      Accumulate(info.descriptorTypes, v).value.poolSizes)
  {
    var flags := PoolCreateFlags(info);

    var types := info.descriptorTypes;
    var poolSizes: seq<PoolSize> := [];
    var maxSets: nat := 0;
    var i := 0;
    while i < |types|
      invariant 0 <= i <= |types|
      invariant Accumulate(types[..i], v) == Some(Accumulated(poolSizes, maxSets))
    {
      var poolType := types[i];
      var typeOpt := GetDescriptorType(poolType.descriptorType, v);
      assert types[..i + 1][..i] == types[..i];
      if typeOpt.None? {
        NoneStaysNone(types, i + 1, v);
        return None;
      }
      poolSizes := poolSizes + [PoolSize(typeOpt.value, poolType.count)];
      maxSets := U32(maxSets + poolType.count);
      i := i + 1;
    }
    assert types[..i] == types;
    r := Some(PoolCreateInfo(flags, maxSets, poolSizes));
  }

  /**
   * descriptor_pool_create: a pool exists exactly when every type resolves
   * and vkCreateDescriptorPool succeeds; it then holds the handle Vulkan
   * produced and records both requests.
   */
  method DescriptorPoolCreate(info: DescriptorPoolInfo, v: Version, result: VkResult, handle: nat)
    returns (pool: DescriptorPool?, createInfo: Option<PoolCreateInfo>)
    ensures pool != null <==> AllTypesResolve(info.descriptorTypes, v) && result == VK_SUCCESS
    ensures pool != null ==>
      fresh(pool) && pool.vulkanHandle == handle && createInfo.Some? &&
      pool.individualFree == info.allowIndividualFree &&
      pool.updateAfterBind == info.allowUpdateAfterBind
  {
    var p := new DescriptorPool();
    p.individualFree := info.allowIndividualFree;
    p.updateAfterBind := info.allowUpdateAfterBind;
    createInfo := PoolCreateInfoFor(info, v);
    AccumulateMeaning(info.descriptorTypes, v);
    if createInfo.None? || result != VK_SUCCESS {
      return null, createInfo;
    }
    p.vulkanHandle := handle;
    pool := p;
  }

  /**
   * descriptor_pool_destroy: a null pool is ignored; otherwise the handle is
   * cleared before the pool is released.
   */
  method DescriptorPoolDestroy(pool: DescriptorPool?)
    modifies pool
    ensures pool != null ==> pool.vulkanHandle == 0
    ensures pool != null ==>
      pool.individualFree == old(pool.individualFree) &&
      pool.updateAfterBind == old(pool.updateAfterBind)
  {
    if pool == null {
      return;
    }
    pool.vulkanHandle := 0;
  }

  /**
   * descriptor_pool_free_set: nothing happens for a null pool or set, nor
   * when the pool was not created to free individual sets; otherwise the set
   * is handed back to Vulkan and its handle cleared.
   */
  method DescriptorPoolFreeSet(pool: DescriptorPool?, descriptorSet: DescriptorSet?)
    modifies descriptorSet
    ensures pool == null || descriptorSet == null || !pool.individualFree ==>
      descriptorSet == null || unchanged(descriptorSet)
    ensures pool != null && descriptorSet != null && pool.individualFree ==>
      descriptorSet.vulkanHandle == 0 && descriptorSet.writeDescriptors == old(descriptorSet.writeDescriptors) &&
      descriptorSet.bufferInfos == old(descriptorSet.bufferInfos) && descriptorSet.imageInfos == old(descriptorSet.imageInfos)
  {
    if pool == null || descriptorSet == null {
      return;
    }
    if !pool.individualFree {
      return;
    }
    descriptorSet.vulkanHandle := 0;
  }
}
