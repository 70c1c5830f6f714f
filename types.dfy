/** Values the rocm_async transaction builder works with: opaque runtime handles,
    the agent and pool records it reads, the access oracle, and the transactions it builds. */
module AsyncTypes {

  /** Opaque runtime handle of an agent (`hsa_agent_t`). */
  datatype AgentHandle = AgentHandle(handle: nat)

  /** Opaque runtime handle of a memory pool (`hsa_amd_memory_pool_t`). */
  datatype PoolHandle = PoolHandle(handle: nat)

  /** `hsa_device_type_t`: the runtime knows three kinds of device. */
  datatype DeviceType = Cpu | Gpu | Dsp

  /** `hsa_amd_memory_pool_access_t`, the answer of the access query. */
  datatype PoolAccess = NeverAllowed | AllowedByDefault | DisallowedByDefault

  /** An entry of `agent_list_`. */
  datatype AgentInfo = AgentInfo(agent: AgentHandle, deviceType: DeviceType)

  /** An entry of `pool_list_`: the pool, the handle of the agent owning it,
      and that agent's position in `agent_list_`. */
  datatype PoolInfo = PoolInfo(pool: PoolHandle, ownerAgent: AgentHandle, agentIndex: nat)

  /** The read-only topology a build consults: both registries and the access
      query `hsa_amd_agent_memory_pool_get_info(agent, pool, ..._ACCESS)`, taken
      to always succeed. */
  datatype Topology = Topology(
    agents: seq<AgentInfo>,
    pools: seq<PoolInfo>,
    access: (AgentHandle, PoolHandle) -> PoolAccess)
  {
    /** `agent_list_[i]`. Past the end of the list, where no builder looks
        (their preconditions keep every index inside), a fixed placeholder. */
    function AgentAt(i: nat): AgentInfo
    {
      if i < |agents| then agents[i] else AgentInfo(AgentHandle(0), Cpu)
    }

    /** `pool_list_[i]`, with a placeholder past the end as for `AgentAt`. */
    function PoolAt(i: nat): PoolInfo
    {
      if i < |pools| then pools[i] else PoolInfo(PoolHandle(0), AgentHandle(0), 0)
    }
  }

  /** The request kinds `REQ_READ`, `REQ_WRITE`, `REQ_COPY_BIDIR`, `REQ_COPY_UNIDIR`. */
  datatype ReqType = ReqRead | ReqWrite | ReqCopyBidir | ReqCopyUnidir

  /** `async_trans_t`: a read/write transaction carries its `kernel` part,
      a copy transaction its `copy` part; both carry the request kind. */
  datatype Trans =
    | IoTrans(req: ReqType, pool: PoolHandle, poolIdx: nat, agent: AgentHandle, agentIdx: nat)
    | CopyTrans(req: ReqType, srcIdx: nat, dstIdx: nat, srcPool: PoolHandle, dstPool: PoolHandle,
                bidir: bool, usesGpu: bool)

  /** What `PrintIOAccessError(exec_idx, pool_idx)` and
      `PrintCopyAccessError(src_idx, dst_idx)` report. */
  datatype AccessError =
    | IoAccessError(agentIdx: nat, poolIdx: nat)
    | CopyAccessError(srcIdx: nat, dstIdx: nat)

  /** The effect of one build call: its boolean result, the transactions it
      appended to `trans_list_`, and the access errors it reported. */
  datatype Outcome = Outcome(ok: bool, added: seq<Trans>, errs: seq<AccessError>)

  /** A call that did nothing and succeeded. */
  function Nothing(): Outcome { Outcome(true, [], []) }

  /** Running `first`, and then, only if it succeeded, `second`. */
  function Then(first: Outcome, second: Outcome): (r: Outcome)
  {
    if !first.ok then first
    else Outcome(second.ok, first.added + second.added, first.errs + second.errs)
  }

  /** `goal` is what is left after `done` was appended, then `rest` ran:
      the form of a loop's progress towards its overall outcome. */
  predicate Resumes(goal: Outcome, done: seq<Trans>, rest: Outcome)
  {
    goal.ok == rest.ok && goal.added == done + rest.added && goal.errs == rest.errs
  }

  lemma AppendAssoc<T>(a: seq<T>, b: seq<T>, c: seq<T>)
    ensures a + (b + c) == (a + b) + c
  {
  }

  lemma ThenNothing(a: Outcome)
    ensures Then(Nothing(), a) == a
    ensures a.ok ==> Then(a, Nothing()) == a
  {
    assert [] + a.added == a.added && [] + a.errs == a.errs;
    assert a.added + [] == a.added && a.errs + [] == a.errs;
  }

  lemma ThenAssociative(a: Outcome, b: Outcome, c: Outcome)
    ensures Then(Then(a, b), c) == Then(a, Then(b, c))
  {
    if a.ok && b.ok {
      assert (a.added + b.added) + c.added == a.added + (b.added + c.added);
      assert (a.errs + b.errs) + c.errs == a.errs + (b.errs + c.errs);
    }
  }
}
