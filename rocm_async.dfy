/** The transaction-list builder of the rocm_async benchmark: the part of
    `RocmAsync` that turns the configured index lists into `trans_list_`. */
module RocmAsyncTrans {
  import opened AsyncTypes
  import opened TransSpec

  class RocmAsync {
    /** `agent_list_`, `pool_list_` and the access query: read-only here. */
    const topo: Topology

    /** The index lists and request flags filled in by argument parsing. */
    const readList: seq<nat>
    const writeList: seq<nat>
    const bidirList: seq<nat>
    const srcList: seq<nat>
    const dstList: seq<nat>
    const reqRead: bool
    const reqWrite: bool
    const reqCopyBidir: bool
    const reqCopyUnidir: bool

    /** `trans_list_`: the transactions built so far. */
    var transList: seq<Trans>

    /** What `PrintIOAccessError` and `PrintCopyAccessError` have printed. */
    ghost var errLog: seq<AccessError>

    /** The builders `BuildTransList` has invoked, in order. */
    ghost var calls: seq<ReqType>

    constructor (topo: Topology, readList: seq<nat>, writeList: seq<nat>, bidirList: seq<nat>,
                 srcList: seq<nat>, dstList: seq<nat>,
                 reqRead: bool, reqWrite: bool, reqCopyBidir: bool, reqCopyUnidir: bool)
      ensures this.topo == topo
      ensures this.readList == readList && this.writeList == writeList
      ensures this.bidirList == bidirList && this.srcList == srcList && this.dstList == dstList
      ensures this.reqRead == reqRead && this.reqWrite == reqWrite
      ensures this.reqCopyBidir == reqCopyBidir && this.reqCopyUnidir == reqCopyUnidir
      ensures transList == [] && errLog == [] && calls == []
    {
      this.topo := topo;
      this.readList, this.writeList, this.bidirList := readList, writeList, bidirList;
      this.srcList, this.dstList := srcList, dstList;
      this.reqRead, this.reqWrite := reqRead, reqWrite;
      this.reqCopyBidir, this.reqCopyUnidir := reqCopyBidir, reqCopyUnidir;
      transList, errLog, calls := [], [], [];
    }

    /** Appends one transaction per `(pool_idx, agent_idx)` pair of `inList`,
        in order, stopping with `false` at the first pair whose agent may never
        access its pool. */
    method BuildReadOrWriteTrans(reqType: ReqType, inList: seq<nat>) returns (ok: bool)
      requires IoListOk(topo, inList)
      modifies this
      ensures var o := IoBuild(topo, reqType, inList);
        && ok == o.ok
        && transList == old(transList) + o.added
        && errLog == old(errLog) + o.errs
      ensures calls == old(calls)
    {
      var listSize := Size32(|inList|);
      VisitedPairs(inList);
      ghost var m := listSize / 2;
      ghost var goal := IoWalkFrom(topo, reqType, inList, m, 0);
      ghost var added: seq<Trans> := [];
      ghost var k := 0;
      var idx := 0;
      while idx < listSize
        invariant idx == 2 * k && k <= m
        invariant transList == old(transList) + added
        invariant errLog == old(errLog) && calls == old(calls)
        invariant Resumes(goal, added, IoWalkFrom(topo, reqType, inList, m, k))
        invariant IoReaches(topo, inList, k)
        decreases listSize - idx
      {
        IoResume(topo, reqType, inList, m, k, goal, added);
        IoReachedOk(topo, inList, k);
        var poolIdx := inList[idx];
        var execIdx := inList[idx + 1];

        var execAgent := topo.agents[execIdx].agent;
        var pool := topo.pools[poolIdx].pool;

        var access := topo.access(execAgent, pool);
        if access == NeverAllowed {
          errLog := errLog + [IoAccessError(execIdx, poolIdx)];
          return false;
        }

        IoReachesNext(topo, inList, k);
        var trans := IoTrans(reqType, pool, poolIdx, execAgent, execIdx);
        AppendAssoc(old(transList), added, [trans]);
        transList := transList + [trans];
        added := added + [trans];
        idx, k := idx + 2, k + 1;
      }
      return true;
    }

    method BuildReadTrans() returns (ok: bool)
      requires IoListOk(topo, readList)
      modifies this
      ensures var o := IoBuild(topo, ReqRead, readList);
        ok == o.ok && transList == old(transList) + o.added && errLog == old(errLog) + o.errs
      ensures calls == old(calls) + [ReqRead]
    {
      calls := calls + [ReqRead];
      ok := BuildReadOrWriteTrans(ReqRead, readList);
    }

    method BuildWriteTrans() returns (ok: bool)
      requires IoListOk(topo, writeList)
      modifies this
      ensures var o := IoBuild(topo, ReqWrite, writeList);
        ok == o.ok && transList == old(transList) + o.added && errLog == old(errLog) + o.errs
      ensures calls == old(calls) + [ReqWrite]
    {
      calls := calls + [ReqWrite];
      ok := BuildReadOrWriteTrans(ReqWrite, writeList);
    }

    /** Appends a copy transaction for each pair of the cross product of the
        source and destination pools, sources major, skipping CPU-to-CPU and
        same-pool pairs, and stopping with `false` at the first pair for which
        either access check answers NEVER_ALLOWED. */
    method BuildCopyTrans(reqType: ReqType, srcL: seq<nat>, dstL: seq<nat>) returns (ok: bool)
      requires CopyListsOk(topo, srcL, dstL)
      modifies this
      ensures var o := CopyBuild(topo, reqType, srcL, dstL);
        && ok == o.ok
        && transList == old(transList) + o.added
        && errLog == old(errLog) + o.errs
      ensures calls == old(calls)
    {
      var srcSize := Size32(|srcL|);
      ghost var dstSize := Size32(|dstL|);
      ghost var goal := CrossWalk(topo, reqType, srcL, srcSize, dstL, dstSize, 0);
      ghost var added: seq<Trans> := [];

      for idx := 0 to srcSize
        invariant transList == old(transList) + added
        invariant errLog == old(errLog) && calls == old(calls)
        invariant Resumes(goal, added, CrossWalk(topo, reqType, srcL, srcSize, dstL, dstSize, idx))
        invariant SrcsPass(topo, srcL, 0, idx, dstL, dstSize)
      {
        SrcReachedOk(topo, srcL, dstL, idx);
        var srcIdx := srcL[idx];
        ghost var row := RowWalk(topo, reqType, srcIdx, dstL, dstSize, 0);
        CrossResume(topo, reqType, srcL, srcSize, dstL, dstSize, idx, goal, added);
        AppendAssoc(old(transList), added, row.added);

        ok := BuildCopyRow(reqType, srcIdx, dstL);
        if !ok {
          return false;
        }
        SrcsPassNext(topo, reqType, srcL, idx, dstL, dstSize);
        added := added + row.added;
      }
      return true;
    }

    /** One pass of the outer loop of `BuildCopyTrans`: the records of source
        pool `srcIdx` are looked up, then the inner loop checks it against every
        destination in turn. */
    method BuildCopyRow(reqType: ReqType, srcIdx: nat, dstL: seq<nat>) returns (ok: bool)
      requires PoolOk(topo, srcIdx) && DstListOk(topo, srcIdx, dstL, 0, Size32(|dstL|))
      modifies this
      ensures var o := RowWalk(topo, reqType, srcIdx, dstL, Size32(|dstL|), 0);
        && ok == o.ok
        && transList == old(transList) + o.added
        && errLog == old(errLog) + o.errs
      ensures calls == old(calls)
    {
      var srcAgent := topo.pools[srcIdx].ownerAgent;
      var srcPool := topo.pools[srcIdx].pool;
      var srcDevIdx := topo.pools[srcIdx].agentIndex;
      var srcDevType := topo.agents[srcDevIdx].deviceType;

      var dstSize := Size32(|dstL|);
      ghost var goal := RowWalk(topo, reqType, srcIdx, dstL, dstSize, 0);
      ghost var added: seq<Trans> := [];

      for jdx := 0 to dstSize
        invariant transList == old(transList) + added
        invariant errLog == old(errLog) && calls == old(calls)
        invariant Resumes(goal, added, RowWalk(topo, reqType, srcIdx, dstL, dstSize, jdx))
        invariant RowPasses(topo, srcIdx, dstL, 0, jdx)
      {
        RowResume(topo, reqType, srcIdx, dstL, dstSize, jdx, goal, added);
        DstReachedOk(topo, srcIdx, dstL, jdx);
        var dstIdx := dstL[jdx];
        var dstAgent := topo.pools[dstIdx].ownerAgent;
        var dstPool := topo.pools[dstIdx].pool;
        var dstDevIdx := topo.pools[dstIdx].agentIndex;
        var dstDevType := topo.agents[dstDevIdx].deviceType;

        // No copy between two CPU-owned pools.
        if srcDevType == Cpu && dstDevType == Cpu {
          continue;
        }

        // No copy from a pool to itself.
        if srcIdx == dstIdx {
          continue;
        }

        var access := topo.access(dstAgent, srcPool);
        if access == NeverAllowed {
          errLog := errLog + [CopyAccessError(srcIdx, dstIdx)];
          return false;
        }

        access := topo.access(srcAgent, dstPool);
        if access == NeverAllowed {
          return false;
        }

        RowPassesNext(topo, srcIdx, dstL, jdx);
        var trans := CopyTrans(reqType, srcIdx, dstIdx, srcPool, dstPool,
                               reqType == ReqCopyBidir, srcDevType == Gpu || dstDevType == Gpu);
        AppendAssoc(old(transList), added, [trans]);
        transList := transList + [trans];
        added := added + [trans];
      }
      return true;
    }

    method BuildBidirCopyTrans() returns (ok: bool)
      requires CopyListsOk(topo, bidirList, bidirList)
      modifies this
      ensures var o := CopyBuild(topo, ReqCopyBidir, bidirList, bidirList);
        ok == o.ok && transList == old(transList) + o.added && errLog == old(errLog) + o.errs
      ensures calls == old(calls) + [ReqCopyBidir]
    {
      calls := calls + [ReqCopyBidir];
      ok := BuildCopyTrans(ReqCopyBidir, bidirList, bidirList);
    }

    method BuildUnidirCopyTrans() returns (ok: bool)
      requires CopyListsOk(topo, srcList, dstList)
      modifies this
      ensures var o := CopyBuild(topo, ReqCopyUnidir, srcList, dstList);
        ok == o.ok && transList == old(transList) + o.added && errLog == old(errLog) + o.errs
      ensures calls == old(calls) + [ReqCopyUnidir]
    {
      calls := calls + [ReqCopyUnidir];
      ok := BuildCopyTrans(ReqCopyUnidir, srcList, dstList);
    }

    /** Whether the `req_*` flag of builder kind `k` is set. */
    predicate Requested(k: ReqType)
    {
      match k
      case ReqRead => reqRead
      case ReqWrite => reqWrite
      case ReqCopyBidir => reqCopyBidir
      case ReqCopyUnidir => reqCopyUnidir
    }

    /** The outcome the builder of kind `k` would have on its configured lists. */
    function BuilderOutcome(k: ReqType): Outcome
    {
      match k
      case ReqRead => IoBuild(topo, ReqRead, readList)
      case ReqWrite => IoBuild(topo, ReqWrite, writeList)
      case ReqCopyBidir => CopyBuild(topo, ReqCopyBidir, bidirList, bidirList)
      case ReqCopyUnidir => CopyBuild(topo, ReqCopyUnidir, srcList, dstList)
    }

    /** What the builder of kind `k` demands of its lists. */
    predicate ListsOk(k: ReqType)
    {
      match k
      case ReqRead => IoListOk(topo, readList)
      case ReqWrite => IoListOk(topo, writeList)
      case ReqCopyBidir => CopyListsOk(topo, bidirList, bidirList)
      case ReqCopyUnidir => CopyListsOk(topo, srcList, dstList)
    }

    /** `BuildTransList` gets as far as the block of kind `k`: every requested
        builder before it succeeds. */
    predicate Reached(k: ReqType)
    {
      forall k' :: Requested(k') && Stage(k') < Stage(k) ==> BuilderOutcome(k').ok
    }

    /** What `BuildTransList` demands: the lists of every builder it invokes
        meet that builder's precondition. The lists of builders it never gets
        to are not looked at. */
    predicate Ready()
    {
      forall k :: Requested(k) && Reached(k) ==> ListsOk(k)
    }

    /** The four request flags, by position in `BuildTransList`'s order. */
    function Wanted(): (w: seq<bool>)
      ensures |w| == 4 && forall k :: w[Stage(k)] == Requested(k)
    {
      [reqRead, reqWrite, reqCopyBidir, reqCopyUnidir]
    }

    /** The outcome each builder would have, by position in `BuildTransList`'s
        order. */
    function Results(): (rs: seq<Outcome>)
      ensures |rs| == 4 && forall k :: rs[Stage(k)] == BuilderOutcome(k)
    {
      [BuilderOutcome(ReqRead), BuilderOutcome(ReqWrite),
       BuilderOutcome(ReqCopyBidir), BuilderOutcome(ReqCopyUnidir)]
    }

    /** The builders `BuildTransList` considers, in its order. */
    function Schedule(): seq<Step>
    {
      PlanFrom(Wanted(), Results(), 0)
    }

    // The run of `BuildTransList` is written three ways, so that no single
    // proof has to unfold the builders' outcomes and the plan at once:
    // `RunSteps(Schedule())` is what its contract promises and what the plan
    // lemmas describe; `RunFrom` is the same run as right-nested blocks, which
    // matches `RunSteps` step by step (`RunFromSchedule`); `Through` is its
    // left-nested prefix, which matches the method's blocks as they run one
    // after another (`ThroughResumes`).

    /** One block of `BuildTransList`: the builder of kind `k` if requested,
        and nothing otherwise. */
    ghost function StageRun(k: ReqType): Run
    {
      if Requested(k) then Run(BuilderOutcome(k), [k]) else Run(Nothing(), [])
    }

    /** The blocks of `BuildTransList` from position `n` on. */
    ghost function RunFrom(n: nat): Run
      decreases 4 - n
    {
      if n >= 4 then Run(Nothing(), []) else Chain(StageRun(StageKind(n)), RunFrom(n + 1))
    }

    /** The blocks from position `n` on run the plan from `n` on. */
    lemma {:induction false} RunFromSchedule(n: nat)
      requires n <= 4
      ensures RunFrom(n) == RunSteps(PlanFrom(Wanted(), Results(), n))
      decreases 4 - n
    {
      if n < 4 {
        RunFromSchedule(n + 1);
        PlanUnfold(Wanted(), Results(), n);
        var k := StageKind(n);
        var r := RunFrom(n + 1);
        if !Requested(k) {
          ThenNothing(r.outcome);
          assert [] + r.invoked == r.invoked;
        }
      }
    }

    /** The state after the blocks before position `n`, started on the logs
        `l0`: a failed block leaves the logs as they are. */
    ghost function Through(n: nat, l0: Logs): Progress
      requires n <= 4
    {
      if n == 0 then Progress(true, l0)
      else
        var p := Through(n - 1, l0);
        if !p.ok then p
        else
          var r := StageRun(StageKind(n - 1));
          Progress(r.outcome.ok, Extend(p.logs, r))
    }

    /** After the blocks before position `n` succeeded, the block at `n` is
        reached. */
    lemma {:induction false} ThroughReached(n: nat, l0: Logs)
      requires n < 4 && Through(n, l0).ok
      ensures Reached(StageKind(n))
    {
      if n > 0 {
        ThroughReached(n - 1, l0);
        var k0 := StageKind(n - 1);
        assert forall k' :: Stage(k') < n ==> k' == k0 || Stage(k') < n - 1;
      }
    }

    /** After the blocks before position `n` succeeded, the block at `n` may
        run its builder. */
    lemma BlockReady(n: nat, l0: Logs)
      requires Ready() && n < 4 && Through(n, l0).ok
      ensures Requested(StageKind(n)) ==> ListsOk(StageKind(n))
    {
      ThroughReached(n, l0);
    }

    /** The blocks before position `n` and the blocks from `n` on make up the
        whole run. */
    lemma {:induction false} ThroughResumes(n: nat, l0: Logs)
      requires n <= 4
      ensures var p, g := Through(n, l0), RunFrom(0);
        && (p.ok ==> g.outcome.ok == RunFrom(n).outcome.ok && Extend(l0, g) == Extend(p.logs, RunFrom(n)))
        && (!p.ok ==> !g.outcome.ok && Extend(l0, g) == p.logs)
    {
      if n == 0 {
      } else {
        ThroughResumes(n - 1, l0);
        var p := Through(n - 1, l0);
        if p.ok {
          var r, rest := StageRun(StageKind(n - 1)), RunFrom(n);
          assert RunFrom(n - 1) == Chain(r, rest);
          if r.outcome.ok {
            var l := p.logs;
            AppendAssoc(l.trans, r.outcome.added, rest.outcome.added);
            AppendAssoc(l.errs, r.outcome.errs, rest.outcome.errs);
            AppendAssoc(l.calls, r.invoked, rest.invoked);
          }
        }
      }
    }

    /** The state `BuildTransList` returns with, after its last block or at a
        failing one, is that of the schedule's run. */
    lemma BuildTransListDone(n: nat, l0: Logs)
      requires n <= 4 && (n < 4 ==> !Through(n, l0).ok)
      ensures var p, g := Through(n, l0), RunSteps(Schedule());
        p.ok == g.outcome.ok && p.logs == Extend(l0, g)
    {
      ThroughResumes(n, l0);
      RunFromSchedule(0);
      var l := Through(n, l0).logs;
      assert l.trans + [] == l.trans && l.errs + [] == l.errs && l.calls + [] == l.calls;
    }

    /** One of the four blocks of `BuildTransList`: if kind `k` was requested,
        runs its builder and returns what it returns; otherwise returns `true`
        and changes nothing. */
    method BuildIfRequested(k: ReqType) returns (ok: bool)
      requires Requested(k) ==> ListsOk(k)
      modifies this
      ensures var r := StageRun(k);
        && ok == r.outcome.ok
        && transList == old(transList) + r.outcome.added
        && errLog == old(errLog) + r.outcome.errs
        && calls == old(calls) + r.invoked
    {
      ok := true;
      if Requested(k) {
        match k
        case ReqRead => ok := BuildReadTrans();
        case ReqWrite => ok := BuildWriteTrans();
        case ReqCopyBidir => ok := BuildBidirCopyTrans();
        case ReqCopyUnidir => ok := BuildUnidirCopyTrans();
      }
    }

    /** Builds `trans_list_` from every requested kind in the order read,
        write, bidirectional copy, unidirectional copy, returning `false` as
        soon as one builder does without calling the later ones. */
    method BuildTransList() returns (ok: bool)
      requires Ready()
      modifies this
      ensures var r := RunSteps(Schedule());
        && ok == r.outcome.ok
        && transList == old(transList) + r.outcome.added
        && errLog == old(errLog) + r.outcome.errs
        && calls == old(calls) + r.invoked
    {
      ghost var l0 := Logs(transList, errLog, calls);

      BlockReady(0, l0);
      var status := BuildIfRequested(ReqRead);
      assert Through(1, l0) == Progress(status, Logs(transList, errLog, calls));
      if !status {
        BuildTransListDone(1, l0);
        return status;
      }

      BlockReady(1, l0);
      status := BuildIfRequested(ReqWrite);
      assert Through(2, l0) == Progress(status, Logs(transList, errLog, calls));
      if !status {
        BuildTransListDone(2, l0);
        return status;
      }

      BlockReady(2, l0);
      status := BuildIfRequested(ReqCopyBidir);
      assert Through(3, l0) == Progress(status, Logs(transList, errLog, calls));
      if !status {
        BuildTransListDone(3, l0);
        return status;
      }

      BlockReady(3, l0);
      status := BuildIfRequested(ReqCopyUnidir);
      assert Through(4, l0) == Progress(status, Logs(transList, errLog, calls));
      if !status {
        BuildTransListDone(4, l0);
        return status;
      }

      BuildTransListDone(4, l0);
      // Every requested builder succeeded.
      return true;
    }

    /** The builders `BuildTransList` considers are exactly the requested
        ones, in the order read, write, bidirectional copy, unidirectional
        copy, each with the outcome of its builder. */
    lemma ScheduleShape()
      ensures var sch := Schedule();
        && (forall k :: k in Kinds(sch) <==> Requested(k))
        && (forall i, j :: 0 <= i < j < |sch| ==> Stage(sch[i].kind) < Stage(sch[j].kind))
        && (forall i :: 0 <= i < |sch| ==> Requested(sch[i].kind) && sch[i].result == BuilderOutcome(sch[i].kind))
    {
      PlanContents(Wanted(), Results());
    }

    /** `BuildTransList` succeeds if and only if every requested builder
        succeeds. */
    lemma BuildTransListOk()
      ensures RunSteps(Schedule()).outcome.ok <==> forall k :: Requested(k) ==> BuilderOutcome(k).ok
    {
      PlanRunOk(Wanted(), Results(), 0);
    }

    /** When it succeeds, `BuildTransList` has invoked every requested builder
        and appended and reported what they did, one after another. */
    lemma BuildTransListAll()
      requires RunSteps(Schedule()).outcome.ok
      ensures var sch, r := Schedule(), RunSteps(Schedule());
        r.invoked == Kinds(sch) && r.outcome.added == AllAdded(sch) && r.outcome.errs == AllErrs(sch)
    {
      var sch := Schedule();
      RunStepsShape(sch);
      assert sch[..|sch|] == sch;
    }

    /** A builder is invoked if and only if it was requested and every
        requested builder before it in the fixed order succeeded: a failure
        stops the later builders from being called. */
    lemma BuildTransListInvoked(k: ReqType)
      ensures k in RunSteps(Schedule()).invoked <==>
        Requested(k) && forall k' :: Requested(k') && Stage(k') < Stage(k) ==> BuilderOutcome(k').ok
    {
      PlanRunInvoked(Wanted(), Results(), 0, k);
    }

    /** With the read builder requested and failing, `BuildTransList` fails
        after invoking that builder alone, and keeps what it appended and
        reported before the denied pair. */
    lemma BuildTransListReadFails()
      requires reqRead && !BuilderOutcome(ReqRead).ok
      ensures var r := RunSteps(Schedule());
        && !r.outcome.ok && r.invoked == [ReqRead]
        && r.outcome == IoBuild(topo, ReqRead, readList)
    {
      PlanUnfold(Wanted(), Results(), 0);
    }

    /** With no kind requested, `BuildTransList` succeeds without invoking any
        builder. */
    lemma BuildTransListNothingRequested()
      requires !reqRead && !reqWrite && !reqCopyBidir && !reqCopyUnidir
      ensures Ready() && RunSteps(Schedule()) == Run(Nothing(), [])
    {
      PlanUnfold(Wanted(), Results(), 0);
      PlanUnfold(Wanted(), Results(), 1);
      PlanUnfold(Wanted(), Results(), 2);
      PlanUnfold(Wanted(), Results(), 3);
    }
  }
}
