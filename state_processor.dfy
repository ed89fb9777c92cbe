/**
 * The hook controller of core/state_processor.go: the `dzd` call-context
 * globals, the `dan` registration requests and the plugin registry, updated
 * in place by ApplyTransaction, applyTransaction and Process. Each method is
 * proved to append exactly the steps that module Hooks specifies.
 */
module Core {
  import opened Wrappers
  import opened PluginManage
  import opened Hooks

  /** dan.Clear, the value a drained request path or plugin name is reset to. */
  const Clear: string := ""

  /** What registering the pending path does: nothing unless a request is pending. */
  function PendingLoad(isReg: bool, regPath: string, fs: FileSystem): LoadResult
  {
    if isReg then RegisterPluginSpec(ArtifactAt(fs, regPath)) else LoadResult([], None)
  }

  /** The `dan` globals: dan.IsReg, dan.RegPath, dan.IsUn, dan.UnPlg, the requests left by the management interface. */
  datatype Requests = Requests(isReg: bool, regPath: string, isUn: bool, unPlg: string)

  /** The requests after a drain that did not halt: both cleared, each drained path or name reset. */
  function Drained(d: Requests): Requests
  {
    Requests(false, if d.isReg then Clear else d.regPath, false, if d.isUn then Clear else d.unPlg)
  }

  /** How Process ends: with the receipts and logs of every transaction, or at the first failing one. */
  datatype ProcessResult = Processed(receipts: seq<Receipt>, logs: seq<string>) | Aborted(abort: Abort)

  function ResultOf(r: BlockRun): ProcessResult
  {
    if r.abort.None? then Processed(r.receipts, r.logs) else Aborted(r.abort.value)
  }

  /** Nothing gathered yet: the accounting is the loop itself. */
  lemma JoinEmpty(r: BlockRun)
    ensures Join([], [], [], r) == r
  {
  }

  /** Where the loop ends, the trace so far plus the last steps is the whole accounting. */
  lemma JoinEnds(trace0: seq<Step>, done: seq<Step>, receipts: seq<Receipt>, logs: seq<string>, last: BlockRun)
    ensures var j := Join(done, receipts, logs, last);
      && trace0 + done + last.steps == trace0 + j.steps
      && j.abort == last.abort && j.ctx == last.ctx
      && j.receipts == receipts + last.receipts && j.logs == logs + last.logs
  {
  }

  /** Steps appended after the steps appended so far. */
  lemma Extend(trace0: seq<Step>, done: seq<Step>, steps: seq<Step>)
    ensures (trace0 + done) + steps == trace0 + (done + steps)
  {
  }

  /** applyTransaction's steps after those taken so far, part by part. */
  lemma FinishTxParts(trace0: seq<Step>, reg: set<string>, tx: Tx, pre: CallContext, run: EvmRun)
    ensures var mid := (trace0 + ExecuteSteps(pre, run)) + Hook(reg, ExternalInfoEndEvent, EndInfo(tx, run));
      trace0 + FinishTx(reg, tx, pre, run).steps == (if Completes(run) then mid + EndSteps(reg) else mid)
  {
  }

  class HookController {
    /** config.TransferDataPlg */
    const plg: PluginManages
    /** The `dzd` globals. */
    var ctx: CallContext
    /** The `dan` globals. */
    var dan: Requests
    /** The observable steps taken so far. */
    var trace: seq<Step>

    constructor (plg: PluginManages, ctx: CallContext)
      ensures this.plg == plg && this.ctx == ctx && trace == []
      ensures dan == Requests(false, Clear, false, Clear)
    {
      this.plg := plg;
      this.ctx := ctx;
      dan := Requests(false, Clear, false, Clear);
      trace := [];
    }

    /**
     * The drain at the top of ApplyTransaction: a pending registration loads
     * the plugin at RegPath and clears the request; a pending unregistration
     * calls UnRegisterPlg and clears that request. A plugin that fails to
     * load halts the process with both requests as they were.
     */
    method Drain(fs: FileSystem, kept: set<string>) returns (halt: Option<Halt>)
      modifies this, plg
      ensures ctx == old(ctx)
      ensures var load := PendingLoad(old(dan.isReg), old(dan.regPath), fs);
        && plg.registrations == old(plg.registrations) + load.calls
        && (load.halt.Some? ==>
              && halt == Some(PluginHalted(old(dan.regPath), load.halt.value))
              && trace == old(trace) + [LoadPlugin(old(dan.regPath))]
              && plg.registered == old(plg.registered) + Opcodes(load.calls)
              && dan == old(dan))
        && (load.halt.None? ==>
              && halt.None?
              && trace == old(trace) + DrainSteps(old(dan.isReg), old(dan.regPath), old(dan.isUn))
              && plg.registered == (if old(dan.isUn) then (old(plg.registered) + Opcodes(load.calls)) * kept
                                    else old(plg.registered) + Opcodes(load.calls))
              && dan == Drained(old(dan)))
    {
      if dan.isReg {
        trace := trace + [LoadPlugin(dan.regPath)];
        var r := RegisterPlugin(plg, ArtifactAt(fs, dan.regPath));
        if r.Err? {
          return Some(PluginHalted(dan.regPath, r.error));
        }
        dan := dan.(regPath := Clear);
        dan := dan.(isReg := false);
      }
      if dan.isUn {
        trace := trace + [Unregister];
        plg.UnRegisterPlg(kept);
        dan := dan.(isUn := false);
        dan := dan.(unPlg := Clear);
      }
      halt := None;
    }

    /** The reset of the `dzd` globals and the push of the first frame for a direct target. */
    method BeginContext(tx: Tx)
      modifies this
      ensures ctx == FreshContext(tx)
      ensures trace == old(trace) && dan == old(dan)
    {
      ctx := ctx.(callLayer := 0, callStack := [], allStack := [], externalFlag := true);
      ctx := ctx.(blockingFlag := false, snapshotId := 0, callValidMap := map[], txHash := tx.hash);
      if tx.to.Some? {
        ctx := ctx.(callLayer := ctx.callLayer + 1);
        ctx := ctx.(callStack := ctx.callStack + [tx.to.value + "#" + Itoa(ctx.callLayer)]);
        ctx := ctx.(allStack := ctx.allStack + [tx.to.value]);
      }
    }

    /** The TXSTART and EXTERNALINFOSTART dispatches, each behind GetOpcodeRegister. */
    method SendStartHooks(tx: Tx)
      modifies this
      ensures trace == old(trace) + StartHooks(plg.registered, tx)
      ensures ctx == old(ctx) && dan == old(dan)
    {
      if plg.GetOpcodeRegister(TxStartEvent) {
        trace := trace + [Send(TxStartEvent, Flag)];
      }
      var tcstart := TransInfo("", 0, "", "", false);
      if plg.GetOpcodeRegister(ExternalInfoStartEvent) {
        tcstart := tcstart.(txHash := tx.hash, callLayer := 1);
        if tx.to.Some? {
          tcstart := tcstart.(callType := "CALL", to := tx.to.value);
        }
        trace := trace + [Send(ExternalInfoStartEvent, tcstart)];
      }
    }

    /**
     * ApplyMessage starts from the current `dzd` globals and leaves them as it
     * pleases; a set BLOCKING_FLAG then reverts to PLUGIN_SNAPSHOT_ID.
     */
    method RunMessage(run: EvmRun)
      modifies this
      ensures ctx == run.post && trace == old(trace) + ExecuteSteps(old(ctx), run)
      ensures dan == old(dan)
    {
      trace := trace + [Execute(ctx)];
      ctx := run.post;
      if ctx.blockingFlag {
        trace := trace + [Revert(ctx.snapshotId)];
      }
    }

    /**
     * The EXTERNALINFOEND dispatch of applyTransaction, on the error path and
     * on the executed path, filled in as each path fills it.
     */
    method SendEndHook(tx: Tx, run: EvmRun)
      modifies this
      ensures trace == old(trace) + Hook(plg.registered, ExternalInfoEndEvent, EndInfo(tx, run))
      ensures ctx == old(ctx) && dan == old(dan)
    {
      var tcend := TransInfo("", 0, "", "", false);
      if plg.GetOpcodeRegister(ExternalInfoEndEvent) {
        tcend := tcend.(txHash := tx.hash, callLayer := 1);
        match run.outcome {
          case MessageError =>
            tcend := tcend.(isSuccess := false);
          case Executed(failed) =>
            if tx.to.None? {
              tcend := tcend.(callType := "CREATE", to := run.created);
            }
            tcend := tcend.(isSuccess := !failed);
        }
        trace := trace + [Send(ExternalInfoEndEvent, tcend)];
      }
    }

    /**
     * applyTransaction: run the message, revert if a plugin asked for it,
     * dispatch EXTERNALINFOEND, pop one frame, dispatch TXEND and Stop. The
     * error path reports through EXTERNALINFOEND without reading the nil
     * result (FinishTxAsWritten keeps the code as written).
     */
    method ApplyTx(tx: Tx, run: EvmRun) returns (outcome: TxOutcome)
      modifies this
      ensures var r := FinishTx(plg.registered, tx, old(ctx), run);
        trace == old(trace) + r.steps && ctx == r.ctx && outcome == r.outcome
      ensures dan == old(dan)
    {
      FinishTxParts(trace, plg.registered, tx, ctx, run);
      RunMessage(run);
      SendEndHook(tx, run);
      if run.outcome.MessageError? {
        return TxFailed(MessageFailed);
      }
      var contractAddress: Option<string> := None;
      if tx.to.None? {
        contractAddress := Some(run.created);
      }
      var receipt := Receipt(tx.hash, run.outcome.failed, contractAddress, run.logs);
      if |ctx.callStack| == 0 {
        return TxHalted(StackUnderflow);
      }
      ghost var ended := trace;
      ctx := ctx.(callStack := ctx.callStack[..|ctx.callStack| - 1]);
      if plg.GetOpcodeRegister(TxEndEvent) {
        trace := trace + [Send(TxEndEvent, Flag)];
        trace := trace + [Stop];
      }
      assert trace == ended + EndSteps(plg.registered);
      return Applied(receipt);
    }

    /**
     * ApplyTransaction: an unconvertible message changes nothing; otherwise
     * Start, the drain, the reset of the globals, the start hooks and then
     * applyTransaction.
     */
    method ApplyTransaction(tx: Tx, fs: FileSystem, kept: set<string>, run: EvmRun) returns (outcome: TxOutcome)
      modifies this, plg
      ensures !tx.convertible ==>
        && outcome == TxFailed(NotConvertible)
        && trace == old(trace) && ctx == old(ctx) && dan == old(dan)
        && plg.registered == old(plg.registered) && plg.registrations == old(plg.registrations)
      ensures tx.convertible ==>
        var load := PendingLoad(old(dan.isReg), old(dan.regPath), fs);
        && plg.registrations == old(plg.registrations) + load.calls
        && (load.halt.Some? ==>
              && outcome == TxHalted(PluginHalted(old(dan.regPath), load.halt.value))
              && trace == old(trace) + [Start, LoadPlugin(old(dan.regPath))]
              && plg.registered == old(plg.registered) + Opcodes(load.calls)
              && ctx == old(ctx) && dan == old(dan))
        && (load.halt.None? ==>
              && plg.registered == (if old(dan.isUn) then (old(plg.registered) + Opcodes(load.calls)) * kept
                                    else old(plg.registered) + Opcodes(load.calls))
              && trace == old(trace) + TransactionSteps(DrainSteps(old(dan.isReg), old(dan.regPath), old(dan.isUn)), plg.registered, tx, run)
              && outcome == FinishTx(plg.registered, tx, FreshContext(tx), run).outcome
              && ctx == FinishTx(plg.registered, tx, FreshContext(tx), run).ctx
              && dan == Drained(old(dan)))
    {
      if !tx.convertible {
        return TxFailed(NotConvertible);
      }
      ghost var drain := DrainSteps(dan.isReg, dan.regPath, dan.isUn);
      trace := trace + [Start];
      var halt := Drain(fs, kept);
      if halt.Some? {
        return TxHalted(halt.value);
      }
      BeginContext(tx);
      SendStartHooks(tx);
      outcome := ApplyTx(tx, run);
      TransactionStepsSplit(old(trace), drain, plg.registered, tx, run);
    }

    /**
     * Process: the handle_BLOCK_INFO dispatch, then applyTransaction for each
     * transaction in order, gathering receipts and logs and stopping at the
     * first failure or halt. The drain, the reset and the start hooks of
     * ApplyTransaction do not happen here.
     */
    method Process(block: Block, runs: seq<EvmRun>) returns (result: ProcessResult)
      requires |runs| == |block.txs|
      modifies this
      ensures var r := ProcessTxs(plg.registered, old(ctx), block.txs, runs, 0);
        && trace == old(trace) + BlockHook(plg.registered, block.number) + r.steps
        && ctx == r.ctx
        && result == ResultOf(r)
      ensures dan == old(dan)
    {
      if plg.GetOpcodeRegister(BlockInfoEvent) {
        trace := trace + [Send(BlockInfoEvent, BlockInfo(block.number))];
      }
      result := ApplyAll(block.txs, runs);
    }

    /** The transaction loop of Process. */
    method ApplyAll(txs: seq<Tx>, runs: seq<EvmRun>) returns (result: ProcessResult)
      requires |runs| == |txs|
      modifies this
      ensures var r := ProcessTxs(plg.registered, old(ctx), txs, runs, 0);
        && trace == old(trace) + r.steps
        && ctx == r.ctx
        && result == ResultOf(r)
      ensures dan == old(dan)
    {
      ghost var spec := ProcessTxs(plg.registered, ctx, txs, runs, 0);
      ghost var rest := spec;
      ghost var done: seq<Step> := [];
      var receipts: seq<Receipt> := [];
      var allLogs: seq<string> := [];
      var i := 0;
      JoinEmpty(spec);
      while i < |txs|
        invariant 0 <= i <= |txs|
        invariant trace == old(trace) + done
        invariant dan == old(dan)
        invariant spec == Join(done, receipts, allLogs, rest)
        invariant rest == ProcessTxs(plg.registered, ctx, txs, runs, i)
      {
        if !txs[i].convertible {
          JoinEnds(old(trace), done, receipts, allLogs, rest);
          return Aborted(AbortFailed(i, NotConvertible));
        }
        ghost var t, next;
        var outcome;
        outcome, t, next := ApplyAt(txs, runs, i, rest);
        Extend(old(trace), done, t.steps);
        if !outcome.Applied? {
          JoinEnds(old(trace), done, receipts, allLogs, rest);
          return Aborted(if outcome.TxFailed? then AbortFailed(i, outcome.error) else AbortHalted(i, outcome.halt));
        }
        JoinApplied(done, receipts, allLogs, t, i, next);
        rest := next;
        done := done + t.steps;
        receipts := receipts + [outcome.receipt];
        allLogs := allLogs + outcome.receipt.logs;
        i := i + 1;
      }
      JoinEnds(old(trace), done, receipts, allLogs, rest);
      return Processed(receipts, allLogs);
    }

    /** One convertible transaction of Process's loop: applyTransaction, and how the loop goes on. */
    method ApplyAt(txs: seq<Tx>, runs: seq<EvmRun>, i: nat, ghost rest: BlockRun)
      returns (outcome: TxOutcome, ghost t: TxRun, ghost next: BlockRun)
      requires |runs| == |txs| && i < |txs| && txs[i].convertible
      requires rest == ProcessTxs(plg.registered, ctx, txs, runs, i)
      modifies this
      ensures t == FinishTx(plg.registered, txs[i], old(ctx), runs[i])
      ensures trace == old(trace) + t.steps && ctx == t.ctx && outcome == t.outcome
      ensures next == ProcessTxs(plg.registered, ctx, txs, runs, i + 1)
      ensures rest == Continue(t, i, next)
      ensures dan == old(dan)
    {
      t := FinishTx(plg.registered, txs[i], ctx, runs[i]);
      ProcessTxsAt(plg.registered, ctx, txs, runs, i);
      outcome := ApplyTx(txs[i], runs[i]);
      next := ProcessTxs(plg.registered, ctx, txs, runs, i + 1);
    }
  }
}
