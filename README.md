# rocm_async transaction-list builder

This project models the part of the `rocm_async` benchmark that decides which
asynchronous memory operations the benchmark will run. `RocmAsync` turns the
configured index lists into `trans_list_`, an ordered list of transactions.

- **Read and write transactions.** `BuildReadOrWriteTrans` reads a flat index
  list as `(pool_idx, agent_idx)` pairs. For each pair it asks the runtime
  whether the agent may access the pool. A pair whose answer is NEVER_ALLOWED
  is reported and ends the build with `false`. Otherwise it appends a
  read/write transaction.
- **Copy transactions.** `BuildCopyTrans` walks the source × destination
  cross product, sources major. It skips pairs whose owners are both CPU agents
  and pairs with the same pool on both sides. It then checks access in both
  directions: the destination's owner on the source pool, then the source's
  owner on the destination pool. Each pair that passes becomes a copy
  transaction with its `bidir_` and `uses_gpu_` flags. Only a failing first
  check is reported. Either failure ends the build with `false`.
- **The whole list.** `BuildTransList` calls the read, write, bidirectional and
  unidirectional builders, in that order, for the kinds requested. It stops at
  the first that fails.

Layout:

- `types.dfy` (module `AsyncTypes`) holds the records, handles and
  transactions. It also holds `Outcome`: what one build call returns, appends
  and reports.
- `trans_spec.dfy` (module `TransSpec`) gives reference definitions of what
  each builder produces, as walks over the candidates it enumerates. It proves
  the properties of those walks.
- `rocm_async.dfy` (module `RocmAsyncTrans`) holds the class `RocmAsync`:
  - `transList` is `trans_list_`, a `seq` field that the builder methods
    append to;
  - the agent and pool registries, the access query, the index lists and the
    request flags are read-only fields;
  - the builders are imperative methods, with the loops, `continue`s
    and early returns of `rocm_async_trans.cpp`;
  - each builder is proved equal to its reference definition: the `ok` it
    returns, what it appends to `transList`, and what it adds to the ghost
    error log `errLog`;
  - `BuildTransList` is also proved equal to the reference run of the
    requested builders, including the ghost log `calls` of builders invoked.

The runtime's access query, `hsa_amd_agent_memory_pool_get_info`, becomes the
total function field `access` of `Topology`. `ErrorCheck` is taken to always
succeed. `PrintIOAccessError` and `PrintCopyAccessError` append to the ghost
`errLog`.

## Model

| member | source | states |
|---|---|---|
| TransSpec.Size32 | rocrtst/samples/rocm_async/rocm_async_trans.cpp:10 | The `uint32_t` copy of a vector size is below 2^32 and at most the size. It equals the size when the size fits. |
| TransSpec.Size32Even | rocrtst/samples/rocm_async/rocm_async_trans.cpp:10 | Truncating an even size to `uint32_t` leaves it even. |
| TransSpec.IoBuildWalksPairs | rocrtst/samples/rocm_async/rocm_async_trans.cpp:10-40 | The read/write loop, stepping `idx` by two over the visited prefix, walks exactly its consecutive `(pool_idx, agent_idx)` pairs. |
| TransSpec.IoWalkShape | rocrtst/samples/rocm_async/rocm_async_trans.cpp:11-40 | A prefix of the pairs, all allowed, becomes one transaction each, in order. On success: every pair, with no report. On failure: the next pair was denied and is the only one reported. |
| TransSpec.IoWalkOk | rocrtst/samples/rocm_async/rocm_async_trans.cpp:26-29 | A read/write walk succeeds if and only if no pair is NEVER_ALLOWED. |
| TransSpec.IoWalkStopsAt | rocrtst/samples/rocm_async/rocm_async_trans.cpp:26-29 | Replacing the pairs after a denied pair leaves the outcome unchanged: no later pair is evaluated. |
| TransSpec.IoBuildAllAllowed | rocrtst/samples/rocm_async/rocm_async_trans.cpp:10-41 | For an even list of fewer than 2^32 entries whose pairs are all allowed and meet the builder's precondition, every index is in range and the build succeeds and reports nothing. It appends exactly half as many transactions as the list has entries: number k has the requested kind, pool `in_list[2k]` and agent `in_list[2k+1]`, with those entries' handles. |
| TransSpec.IoBuildFirstDenied | rocrtst/samples/rocm_async/rocm_async_trans.cpp:26-29 | For an even list of fewer than 2^32 entries whose pair k is the first denied one, the build fails. It keeps the k transactions of the earlier pairs and reports exactly `(exec_idx, pool_idx)` of pair k. |
| TransSpec.IoBuildIgnoresLater | rocrtst/samples/rocm_async/rocm_async_trans.cpp:26-29 | For an even list of fewer than 2^32 entries whose pair k is denied, the build does not depend on anything the list holds after pair k. |
| TransSpec.IoBuildInRange | rocrtst/samples/rocm_async/rocm_async_trans.cpp:13-38 | On a list meeting the builder's precondition, every appended transaction is of the requested kind and names an existing pool and agent, with their `pool_` and `agent_` handles. |
| TransSpec.CopyBuildWalksCandidates | rocrtst/samples/rocm_async/rocm_async_trans.cpp:61-118 | The nested copy loops walk the source-major cross product of the visited lists, with both filters applied, in order. |
| TransSpec.RowWalkIsFiltered | rocrtst/samples/rocm_async/rocm_async_trans.cpp:70-118 | The inner loop, from destination j on, walks that row's pairs that pass the filters. |
| TransSpec.CrossWalkIsFiltered | rocrtst/samples/rocm_async/rocm_async_trans.cpp:61-119 | The outer loop, from source i on, walks the filtered enumeration of the remaining sources. |
| TransSpec.CopyWalkShape | rocrtst/samples/rocm_async/rocm_async_trans.cpp:90-117 | A prefix of the candidates, each passing both checks, becomes copy transactions in order. On success: all of them. On failure: the next candidate failed a check, and an error is reported if and only if the failing check was the first. |
| TransSpec.CopyWalkOk | rocrtst/samples/rocm_async/rocm_async_trans.cpp:90-105 | A copy walk succeeds if and only if every candidate passes both access checks. |
| TransSpec.CopyWalkStopsAt | rocrtst/samples/rocm_async/rocm_async_trans.cpp:94-105 | Nothing after the first candidate that fails a check is evaluated. |
| TransSpec.CopyWalkAppend | rocrtst/samples/rocm_async/rocm_async_trans.cpp:61-119 | Walking two candidate sequences one after the other equals walking the first, then the second only if the first succeeded. |
| TransSpec.FilterKeptSubseq | rocrtst/samples/rocm_async/rocm_async_trans.cpp:79-88 | The filters only delete candidates: what remains is an ordered subsequence. |
| TransSpec.FilterKeptAppend | rocrtst/samples/rocm_async/rocm_async_trans.cpp:79-88 | Filtering a concatenation filters each part. |
| TransSpec.FilterKeptMembers | rocrtst/samples/rocm_async/rocm_async_trans.cpp:79-88 | A pair survives filtering if and only if it is a candidate that is neither CPU-to-CPU nor same-pool. |
| TransSpec.CrossMembers | rocrtst/samples/rocm_async/rocm_async_trans.cpp:61-73 | The enumeration holds exactly the combinations of a listed source with a listed destination. |
| TransSpec.CrossLength | rocrtst/samples/rocm_async/rocm_async_trans.cpp:61-70 | The enumeration has as many pairs as the product of the two list lengths. |
| TransSpec.CrossAt | rocrtst/samples/rocm_async/rocm_async_trans.cpp:61-73 | Position i × (length of `dst_list`) + j of the enumeration is `(src_list[i], dst_list[j])`: sources major, destinations minor. |
| TransSpec.CopyBuildFiltered | rocrtst/samples/rocm_async/rocm_async_trans.cpp:79-117 | Every appended transaction is a copy of the requested kind between listed pools that are distinct and not both CPU-owned. It carries those pools' handles, `bidir_` set if and only if the request is bidirectional, and `uses_gpu_` set if and only if an owner is a GPU. |
| TransSpec.RowWalkOkPasses | rocrtst/samples/rocm_async/rocm_async_trans.cpp:70-117 | When the inner loop for one source returns true, every destination it visited was either filtered out or passed both access checks. |
| TransSpec.CopyBuildInRange | rocrtst/samples/rocm_async/rocm_async_trans.cpp:61-118 | On lists meeting the builder's precondition, every appended transaction is a copy between existing pools, with their `pool_` handles. |
| TransSpec.CopyBuildOrder | rocrtst/samples/rocm_async/rocm_async_trans.cpp:61-118 | The endpoints appended are a prefix of the filtered enumeration, and so an ordered subsequence of the source-major cross product. On success they are the whole filtered enumeration. |
| TransSpec.CopyBuildOk | rocrtst/samples/rocm_async/rocm_async_trans.cpp:90-105 | A copy build succeeds if and only if every filtered candidate passes both checks. |
| TransSpec.CopyBuildBidirBothWays | rocrtst/samples/rocm_async/rocm_async_trans.cpp:123-125 | A successful bidirectional build, with the same list on both sides, holds a copy from b to a for every copy from a to b. |
| TransSpec.BidirTwoPoolsExample | rocrtst/samples/rocm_async/rocm_async_trans.cpp:123-125 | A CPU-owned and a GPU-owned pool, all access allowed, list [0, 1]: the build skips both same-pool pairs and yields exactly the GPU-using copies 0→1 and 1→0. |
| TransSpec.RunStepsShape | rocrtst/samples/rocm_async/rocm_async_trans.cpp:132-172 | Calling builders in order, stopping at the first failure: the invoked builders are a prefix of those given. Their additions and reports are concatenated in order. The run succeeds if and only if every builder does. Otherwise the last invoked builder is the first failing one. |
| TransSpec.PlanContents | rocrtst/samples/rocm_async/rocm_async_trans.cpp:132-168 | The builders considered are exactly the requested ones, in the fixed order, each with its own outcome. |
| TransSpec.PlanRunOk | rocrtst/samples/rocm_async/rocm_async_trans.cpp:132-171 | Running the requested builders from position n on succeeds if and only if each of them succeeds. |
| TransSpec.PlanRunInvoked | rocrtst/samples/rocm_async/rocm_async_trans.cpp:132-168 | A builder is invoked if and only if it is requested and every requested builder before it succeeded. |
| RocmAsyncTrans.RocmAsync.BuildReadOrWriteTrans | rocrtst/samples/rocm_async/rocm_async_trans.cpp:4-42 | It returns the reference walk's result. It appends exactly the walk's transactions to `trans_list_`, keeping what was there, and logs exactly the walk's report. |
| RocmAsyncTrans.RocmAsync.BuildReadTrans | rocrtst/samples/rocm_async/rocm_async_trans.cpp:44-46 | The read build of `read_list_`, logged as one read-builder call. |
| RocmAsyncTrans.RocmAsync.BuildWriteTrans | rocrtst/samples/rocm_async/rocm_async_trans.cpp:48-50 | The write build of `write_list_`, logged as one write-builder call. |
| RocmAsyncTrans.RocmAsync.BuildCopyTrans | rocrtst/samples/rocm_async/rocm_async_trans.cpp:52-121 | It returns the reference copy walk's result. It appends exactly its transactions to `trans_list_`, keeping what was there, and logs exactly its report. |
| RocmAsyncTrans.RocmAsync.BuildCopyRow | rocrtst/samples/rocm_async/rocm_async_trans.cpp:63-118 | One pass of the outer copy loop for one source equals that source's row walk. |
| RocmAsyncTrans.RocmAsync.BuildBidirCopyTrans | rocrtst/samples/rocm_async/rocm_async_trans.cpp:123-125 | The bidirectional copy build of `bidir_list_` against itself, logged as one call. |
| RocmAsyncTrans.RocmAsync.BuildUnidirCopyTrans | rocrtst/samples/rocm_async/rocm_async_trans.cpp:127-129 | The unidirectional copy build of `src_list_` against `dst_list_`, logged as one call. |
| RocmAsyncTrans.RocmAsync.BuildIfRequested | rocrtst/samples/rocm_async/rocm_async_trans.cpp:134-141 | One block of `BuildTransList`: the requested builder's outcome, or success with no change when the kind is not requested. |
| RocmAsyncTrans.RocmAsync.BuildTransList | rocrtst/samples/rocm_async/rocm_async_trans.cpp:132-172 | The result, the transactions appended, the reports and the builders invoked are those of running the requested builders in the fixed order, stopping at the first failure. |
| RocmAsyncTrans.RocmAsync.ScheduleShape | rocrtst/samples/rocm_async/rocm_async_trans.cpp:132-168 | The builders `BuildTransList` considers are exactly the requested kinds, in the order read, write, bidirectional, unidirectional, each with its builder's outcome. |
| RocmAsyncTrans.RocmAsync.BuildTransListOk | rocrtst/samples/rocm_async/rocm_async_trans.cpp:132-171 | `BuildTransList` returns true if and only if every requested builder returns true. |
| RocmAsyncTrans.RocmAsync.BuildTransListAll | rocrtst/samples/rocm_async/rocm_async_trans.cpp:132-171 | On success every requested builder was invoked. The appended transactions and the reports are theirs, concatenated in order. |
| RocmAsyncTrans.RocmAsync.BuildTransListInvoked | rocrtst/samples/rocm_async/rocm_async_trans.cpp:132-168 | A builder is invoked if and only if its kind is requested and every requested builder before it succeeded. |
| RocmAsyncTrans.RocmAsync.BuildTransListReadFails | rocrtst/samples/rocm_async/rocm_async_trans.cpp:136-141 | When the requested read build fails, `BuildTransList` fails having invoked only it, with the read build's additions and report. |
| RocmAsyncTrans.RocmAsync.BuildTransListNothingRequested | rocrtst/samples/rocm_async/rocm_async_trans.cpp:132-172 | With no kind requested, `BuildTransList` may be called and succeeds, invoking nothing and appending nothing. |

## Left out

- `src/core/runtime/amd_agent_signal.cpp` is not part of this model. It only allocates and frees a shared signal through the owning agent's allocator.
- The runtime calls are not modelled as calls:
  - `hsa_amd_agent_memory_pool_get_info` is the `access` function field of `Topology`;
  - `ErrorCheck` is taken to succeed, so a failing query is not modelled;
  - only NEVER_ALLOWED versus any other answer matters.
- `PrintIOAccessError` and `PrintCopyAccessError` append to the ghost `errLog` instead of printing.
- `trans.kernel.code_ = nullptr` and the layout of the runtime handle types are not modelled; handles are opaque numbers.
- Argument parsing, which fills the index lists and the `req_*` flags, is not modelled, and neither is running the transactions.
- The `req_*` fields are modelled as booleans: "the field equals its request constant".
- RocmAsyncTrans.RocmAsync.BuildReadOrWriteTrans: requires an even list whose pairs hold an existing pool index and an existing agent index, for every pair the loop gets to. Those are the pairs up to and including the first denied one. The C++ reads `in_list[idx + 1]`, `agent_list_[exec_idx]` and `pool_list_[pool_idx]` unchecked. The model assumes the configured indices are valid where the loop reads them. Like the C++, it places no demand on the pairs after the first denied one.
- RocmAsyncTrans.RocmAsync.BuildReadOrWriteTrans: odd lists are excluded, so three C++ behaviours are not modelled:
  - an odd list of fewer than 2^32 entries reads one entry past its end, once the loop reaches the unpaired last entry;
  - an odd list of 2^32 or more entries, whose `uint32_t` size is odd, reads one pair more than that size holds, ending with the entry just past it;
  - when that size is 2^32 − 1, `idx += 2` wraps from 2^32 − 2 to 0, so with all pairs allowed the loop never ends.
- RocmAsyncTrans.RocmAsync.BuildCopyTrans: requires an existing pool, whose `agent_index_` names an existing agent, at every position the loops get to. That means every source the outer loop reaches, and every destination the inner loop then reaches. Both stop at the first candidate that fails an access check. The C++ looks both records up unchecked. The model assumes the configured indices are valid where the loops read them. Like the C++, it places no demand on positions after that stop, or on the destination list when no source is visited.
- RocmAsyncTrans.RocmAsync.BuildTransList: requires the lists of each builder it reaches to meet that builder's precondition. The lists of builders it never reaches are unconstrained.
- `Topology.AgentAt` and `Topology.PoolAt` return a fixed placeholder past the end of a registry. No builder reaches that case, because of the preconditions above.
- The `uint32_t` sizes are modelled by `Size32` (the size modulo 2^32). The loops visit only that prefix of a longer list.
- `BuildCopyRow` and `BuildIfRequested` are the body of `BuildCopyTrans`'s outer loop and one block of `BuildTransList`, split into methods of their own. Their statements are those of `rocm_async_trans.cpp`.
