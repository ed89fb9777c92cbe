/**
 * What the per-transaction instrumentation of core/state_processor.go does,
 * as values: the call-context record (the `dzd` globals), the steps the
 * controller takes (registry lifecycle calls, hook dispatches, the opaque
 * ApplyMessage, reverts) and the functions that say which steps one
 * transaction or one block produces. The imperative controller in module
 * Core is proved to append exactly these steps.
 */
module Hooks {
  import opened Wrappers
  import opened PluginManage

  const BlockInfoEvent: string := "handle_BLOCK_INFO"
  const TxStartEvent: string := "TXSTART"
  const ExternalInfoStartEvent: string := "EXTERNALINFOSTART"
  const ExternalInfoEndEvent: string := "EXTERNALINFOEND"
  const TxEndEvent: string := "TXEND"

  /**
   * The `dzd` globals: CALL_LAYER, CALL_STACK (frames "<address>#<layer>"),
   * ALL_STACK, EXTERNAL_FLAG, BLOCKING_FLAG, PLUGIN_SNAPSHOT_ID,
   * CALLVALID_MAP and TxHash.
   */
  datatype CallContext = CallContext(
    callLayer: int,
    callStack: seq<string>,
    allStack: seq<string>,
    externalFlag: bool,
    blockingFlag: bool,
    snapshotId: int,
    callValidMap: map<int, bool>,
    txHash: string)

  /** A transaction: its hash, its direct target (None for a contract creation), and whether tx.AsMessage succeeds. */
  datatype Tx = Tx(hash: string, to: Option<string>, convertible: bool)

  datatype Block = Block(number: nat, txs: seq<Tx>)

  /** What ApplyMessage returned: an error, or a result that failed or succeeded. */
  datatype MessageOutcome = MessageError | Executed(failed: bool)

  /**
   * One run of the opaque ApplyMessage: its outcome, the `dzd` globals as the
   * interpreter leaves them (an arbitrary havoc), the logs it produced, and
   * the address a contract creation yields.
   */
  datatype EvmRun = EvmRun(outcome: MessageOutcome, post: CallContext, logs: seq<string>, created: string)

  /** The payload fields kept: SendFlag, the block number of SendBlockInfo, and five fields of a TransCollector. */
  datatype Payload =
    | Flag
    | BlockInfo(number: nat)
    | TransInfo(txHash: string, callLayer: int, callType: string, to: string, isSuccess: bool)

  /** One observable step of the controller, in the order it happens. */
  datatype Step =
    | Start                                   // TransferDataPlg.Start()
    | Stop                                    // TransferDataPlg.Stop()
    | LoadPlugin(path: string)                // pluginManage.RegisterPlugin(_, path)
    | Unregister                              // TransferDataPlg.UnRegisterPlg()
    | Send(event: string, payload: Payload)   // TransferDataPlg.SendDataToPlugin(event, payload)
    | Execute(pre: CallContext)               // ApplyMessage, started from these `dzd` globals
    | Revert(snapshotId: int)                 // statedb.RevertToSnapshot(id)

  datatype Receipt = Receipt(txHash: string, failed: bool, contractAddress: Option<string>, logs: seq<string>)

  datatype TxError = NotConvertible | MessageFailed

  /** A panic or exit that ends the process during a transaction. */
  datatype Halt =
    | PluginHalted(path: string, reason: HaltReason)   // RegisterPlugin of a pending request
    | StackUnderflow                                   // CALL_STACK[:len-1] on an empty stack
    | NilResult                                        // result.UsedGas read on a nil result

  datatype TxOutcome = Applied(receipt: Receipt) | TxFailed(error: TxError) | TxHalted(halt: Halt)

  /** The steps one call of applyTransaction takes, how it ends, and the `dzd` globals afterwards. */
  datatype TxRun = TxRun(steps: seq<Step>, outcome: TxOutcome, ctx: CallContext)

  /** Why Process stopped before the end of the block, and at which transaction. */
  datatype Abort = AbortFailed(index: nat, error: TxError) | AbortHalted(index: nat, halt: Halt)

  /** The steps of Process's transaction loop, the receipts and logs it gathered, and how it ended. */
  datatype BlockRun = BlockRun(steps: seq<Step>, receipts: seq<Receipt>, logs: seq<string>, abort: Option<Abort>, ctx: CallContext)

  /** strconv.Itoa on a non-negative number. */
  function Itoa(n: nat): string
    decreases n
  {
    if n < 10 then ["0123456789"[n]] else Itoa(n / 10) + ["0123456789"[n % 10]]
  }

  /**
   * The globals right after ApplyTransaction resets them and pushes the
   * first frame: they depend on the transaction alone, so nothing of an
   * earlier transaction survives.
   */
  function FreshContext(tx: Tx): (c: CallContext)
    ensures c.callLayer == |c.callStack| == |c.allStack| <= 1
    ensures tx.to.Some? ==> c.callStack == [tx.to.value + "#1"] && c.allStack == [tx.to.value]
    ensures tx.to.None? ==> c.callStack == [] && c.allStack == []
    ensures !c.blockingFlag && c.snapshotId == 0 && c.callValidMap == map[] && c.externalFlag
    ensures c.txHash == tx.hash
  {
    var reset := CallContext(0, [], [], true, false, 0, map[], tx.hash);
    match tx.to
    case None => reset
    case Some(to) =>
      assert Itoa(1) == "1";
      assert to + "#" + Itoa(1) == to + "#1";
      reset.(callLayer := 1, callStack := [to + "#" + Itoa(1)], allStack := [to])
  }

  /** The EXTERNALINFOSTART payload: call layer 1, and "CALL" with the target when there is one. */
  function StartInfo(tx: Tx): Payload
  {
    match tx.to
    case Some(to) => TransInfo(tx.hash, 1, "CALL", to, false)
    case None => TransInfo(tx.hash, 1, "", "", false)
  }

  /** The dispatch of `event` with `payload` if `event` is registered, else nothing. */
  function Hook(reg: set<string>, event: string, payload: Payload): seq<Step>
  {
    if event in reg then [Send(event, payload)] else []
  }

  /** The TXSTART and EXTERNALINFOSTART dispatches, each only if its name is registered. */
  function StartHooks(reg: set<string>, tx: Tx): seq<Step>
  {
    Hook(reg, TxStartEvent, Flag) + Hook(reg, ExternalInfoStartEvent, StartInfo(tx))
  }

  /** The pending requests drained at the start of ApplyTransaction. */
  function DrainSteps(isReg: bool, regPath: string, isUn: bool): seq<Step>
  {
    (if isReg then [LoadPlugin(regPath)] else []) + (if isUn then [Unregister] else [])
  }

  /** ApplyMessage, then the revert a plugin asked for through BLOCKING_FLAG. */
  function ExecuteSteps(pre: CallContext, run: EvmRun): seq<Step>
  {
    [Execute(pre)] + (if run.post.blockingFlag then [Revert(run.post.snapshotId)] else [])
  }

  /**
   * The EXTERNALINFOEND payload: call layer 1 and the hash; after an error
   * IsSuccess is false, otherwise it is !Failed(), and a creation reports
   * "CREATE" and the new address.
   */
  function EndInfo(tx: Tx, run: EvmRun): Payload
  {
    match run.outcome
    case MessageError => TransInfo(tx.hash, 1, "", "", false)
    case Executed(failed) =>
      match tx.to
      case None => TransInfo(tx.hash, 1, "CREATE", run.created, !failed)
      case Some(_) => TransInfo(tx.hash, 1, "", "", !failed)
  }

  /** The TXEND dispatch and the Stop that follows it, only if TXEND is registered. */
  function EndSteps(reg: set<string>): seq<Step>
  {
    if TxEndEvent in reg then [Send(TxEndEvent, Flag), Stop] else []
  }

  /**
   * applyTransaction after ApplyMessage, with the nil-result read on the
   * error path removed (see FinishTxAsWritten): the revert, the end hook,
   * the pop of one frame, then TXEND and Stop.
   */
  function FinishTx(reg: set<string>, tx: Tx, pre: CallContext, run: EvmRun): TxRun
  {
    TxRun(ExecuteSteps(pre, run) + Hook(reg, ExternalInfoEndEvent, EndInfo(tx, run)) + (if Completes(run) then EndSteps(reg) else []),
          TxOutcomeOf(tx, run),
          if Completes(run) then run.post.(callStack := run.post.callStack[..|run.post.callStack| - 1]) else run.post)
  }

  /** Whether applyTransaction gets past the error check and the pop of CALL_STACK. */
  predicate Completes(run: EvmRun)
  {
    run.outcome.Executed? && |run.post.callStack| > 0
  }

  /** How applyTransaction ends: the ApplyMessage error, the panic of an empty CALL_STACK, or the receipt. */
  function TxOutcomeOf(tx: Tx, run: EvmRun): TxOutcome
  {
    match run.outcome
    case MessageError => TxFailed(MessageFailed)
    case Executed(failed) =>
      if |run.post.callStack| == 0 then TxHalted(StackUnderflow)
      else Applied(Receipt(tx.hash, failed, if tx.to.None? then Some(run.created) else None, run.logs))
  }

  /**
   * applyTransaction as written: `tcend.GasUsed = result.UsedGas` runs
   * before the error check whenever EXTERNALINFOEND is registered, and
   * ApplyMessage returns a nil result with its error, so that path panics.
   */
  function FinishTxAsWritten(reg: set<string>, tx: Tx, pre: CallContext, run: EvmRun): TxRun
  {
    if run.outcome.MessageError? && ExternalInfoEndEvent in reg then
      TxRun(ExecuteSteps(pre, run), TxHalted(NilResult), run.post)
    else FinishTx(reg, tx, pre, run)
  }

  /**
   * Everything one ApplyTransaction does once the message converts: Start,
   * the drained requests, the start hooks, then applyTransaction, whose
   * ApplyMessage starts from the globals as the reset left them.
   */
  function TransactionSteps(drain: seq<Step>, reg: set<string>, tx: Tx, run: EvmRun): seq<Step>
  {
    [Start] + drain + StartHooks(reg, tx) + FinishTx(reg, tx, FreshContext(tx), run).steps
  }

  /** The block-level handle_BLOCK_INFO dispatch at the top of Process. */
  function BlockHook(reg: set<string>, number: nat): seq<Step>
  {
    Hook(reg, BlockInfoEvent, BlockInfo(number))
  }

  /**
   * How Process goes on after one applyTransaction `t` at position `i`: an
   * error or a halt ends the loop there, a receipt is followed by `rest`.
   */
  function Continue(t: TxRun, i: nat, rest: BlockRun): BlockRun
  {
    match t.outcome
    case TxFailed(e) => BlockRun(t.steps, [], [], Some(AbortFailed(i, e)), t.ctx)
    case TxHalted(h) => BlockRun(t.steps, [], [], Some(AbortHalted(i, h)), t.ctx)
    case Applied(receipt) =>
      BlockRun(t.steps + rest.steps, [receipt] + rest.receipts, receipt.logs + rest.logs, rest.abort, rest.ctx)
  }

  /**
   * Process's loop from transaction `i` of the block on: applyTransaction is
   * called directly, so no Start, drain, reset or start hook happens, and each
   * ApplyMessage starts from the globals the previous transaction left (`ctx`
   * for the first); the first error or halt ends the loop.
   */
  function ProcessTxs(reg: set<string>, ctx: CallContext, txs: seq<Tx>, runs: seq<EvmRun>, i: nat): BlockRun
    requires |txs| == |runs| && i <= |txs|
    decreases |txs| - i
  {
    if i == |txs| then BlockRun([], [], [], None, ctx)
    else if !txs[i].convertible then BlockRun([], [], [], Some(AbortFailed(i, NotConvertible)), ctx)
    else
      var t := FinishTx(reg, txs[i], ctx, runs[i]);
      Continue(t, i, ProcessTxs(reg, t.ctx, txs, runs, i + 1))
  }

  /**
   * Process either returns one receipt per transaction, or stops at a
   * transaction of the block: the ones before it yielded receipts.
   */
  lemma {:induction false} ProcessTxsBounds(reg: set<string>, ctx: CallContext, txs: seq<Tx>, runs: seq<EvmRun>, i: nat)
    requires |txs| == |runs| && i <= |txs|
    ensures var r := ProcessTxs(reg, ctx, txs, runs, i);
      && (r.abort.None? ==> |r.receipts| == |txs| - i)
      && (r.abort.Some? ==> i <= r.abort.value.index < |txs| && |r.receipts| == r.abort.value.index - i)
    decreases |txs| - i
  {
    if i < |txs| && txs[i].convertible {
      var t := FinishTx(reg, txs[i], ctx, runs[i]);
      if t.outcome.Applied? {
        ProcessTxsBounds(reg, t.ctx, txs, runs, i + 1);
      }
    }
  }

  /** The logs of the receipts, in order: what Process's `allLogs` gathers. */
  function LogsOf(receipts: seq<Receipt>): seq<string>
  {
    if receipts == [] then [] else receipts[0].logs + LogsOf(receipts[1..])
  }

  /**
   * The receipts Process gathers are, in order, those of the transactions
   * from `i` on: receipt j is what applyTransaction returned for transaction
   * i + j and carries its hash, and the logs are the receipts' logs
   * concatenated in the same order.
   */
  lemma {:induction false} ProcessReceiptsInOrder(reg: set<string>, ctx: CallContext, txs: seq<Tx>, runs: seq<EvmRun>, i: nat)
    requires |txs| == |runs| && i <= |txs|
    ensures var r := ProcessTxs(reg, ctx, txs, runs, i);
      && r.logs == LogsOf(r.receipts)
      && i + |r.receipts| <= |txs|
      && (forall k :: i <= k < i + |r.receipts| ==>
            && txs[k].convertible
            && TxOutcomeOf(txs[k], runs[k]) == Applied(r.receipts[k - i])
            && r.receipts[k - i].txHash == txs[k].hash)
    decreases |txs| - i
  {
    if i < |txs| && txs[i].convertible {
      var t := FinishTx(reg, txs[i], ctx, runs[i]);
      if t.outcome.Applied? {
        ProcessReceiptsInOrder(reg, t.ctx, txs, runs, i + 1);
        var rest := ProcessTxs(reg, t.ctx, txs, runs, i + 1);
        var r := ProcessTxs(reg, ctx, txs, runs, i);
        assert r.receipts == [t.outcome.receipt] + rest.receipts;
        assert r.receipts[1..] == rest.receipts;
        forall k | i <= k < i + |r.receipts|
          ensures && txs[k].convertible
                  && TxOutcomeOf(txs[k], runs[k]) == Applied(r.receipts[k - i])
                  && r.receipts[k - i].txHash == txs[k].hash
        {
          if k == i {
            assert t.outcome == TxOutcomeOf(txs[i], runs[i]);
          } else {
            assert r.receipts[k - i] == rest.receipts[k - (i + 1)];
          }
        }
      }
    }
  }

  /**
   * Process skips the reset: the first ApplyMessage of its loop starts from
   * the globals Process was called with, and the next one from the globals
   * the previous transaction left, after its CALL_STACK lost one frame.
   */
  lemma ProcessCarriesContext(reg: set<string>, ctx: CallContext, txs: seq<Tx>, runs: seq<EvmRun>, i: nat)
    requires |txs| == |runs| && i < |txs| && txs[i].convertible
    ensures var t := FinishTx(reg, txs[i], ctx, runs[i]); var s := ProcessTxs(reg, ctx, txs, runs, i).steps;
      && s[0] == Execute(ctx)
      && (t.outcome.Applied? && i + 1 < |txs| && txs[i + 1].convertible ==>
            var stack := runs[i].post.callStack;
            && 0 < |stack|
            && t.ctx == runs[i].post.(callStack := stack[..|stack| - 1])
            && |t.steps| < |s|
            && s[|t.steps|] == Execute(t.ctx))
  {
    var t := FinishTx(reg, txs[i], ctx, runs[i]);
    ProcessTxsAt(reg, ctx, txs, runs, i);
    if t.outcome.Applied? && i + 1 < |txs| && txs[i + 1].convertible {
      ProcessTxsAt(reg, t.ctx, txs, runs, i + 1);
      var next := ProcessTxs(reg, t.ctx, txs, runs, i + 1);
      assert next.steps[0] == Execute(t.ctx);
      assert ProcessTxs(reg, ctx, txs, runs, i).steps == t.steps + next.steps;
    }
  }

  /** The steps, receipts and logs gathered so far, followed by the rest of the loop. */
  function Join(steps: seq<Step>, receipts: seq<Receipt>, logs: seq<string>, r: BlockRun): BlockRun
  {
    BlockRun(steps + r.steps, receipts + r.receipts, logs + r.logs, r.abort, r.ctx)
  }

  /** One convertible transaction of Process's loop. */
  lemma ProcessTxsAt(reg: set<string>, ctx: CallContext, txs: seq<Tx>, runs: seq<EvmRun>, i: nat)
    requires |txs| == |runs| && i < |txs| && txs[i].convertible
    ensures var t := FinishTx(reg, txs[i], ctx, runs[i]);
      ProcessTxs(reg, ctx, txs, runs, i) == Continue(t, i, ProcessTxs(reg, t.ctx, txs, runs, i + 1))
  {
  }

  /** Gathering an applied transaction's steps, receipt and logs keeps the loop's accounting. */
  lemma JoinApplied(steps: seq<Step>, receipts: seq<Receipt>, logs: seq<string>, t: TxRun, i: nat, rest: BlockRun)
    requires t.outcome.Applied?
    ensures Join(steps, receipts, logs, Continue(t, i, rest))
      == Join(steps + t.steps, receipts + [t.outcome.receipt], logs + t.outcome.receipt.logs, rest)
  {
  }

  lemma TransactionStepsSplit(out: seq<Step>, drain: seq<Step>, reg: set<string>, tx: Tx, run: EvmRun)
    ensures out + TransactionSteps(drain, reg, tx, run)
      == out + [Start] + drain + StartHooks(reg, tx) + FinishTx(reg, tx, FreshContext(tx), run).steps
  {
  }

  // ---------------------------------------------------------------------
  // Properties of the step sequences

  /** The phases of one transaction, in their fixed order; handle_BLOCK_INFO lies outside them. */
  const StartPhase: nat := 0
  const LoadPhase: nat := 1
  const UnregisterPhase: nat := 2
  const TxStartPhase: nat := 3
  const ExternalInfoStartPhase: nat := 4
  const ExecutePhase: nat := 5
  const RevertPhase: nat := 6
  const ExternalInfoEndPhase: nat := 7
  const TxEndPhase: nat := 8
  const StopPhase: nat := 9
  const OutsidePhase: nat := 10

  /**
   * The position of a dispatch in a transaction's fixed order; any other
   * event (handle_BLOCK_INFO) is outside that order.
   */
  function EventPhase(e: string): nat
  {
    if e == TxStartEvent then TxStartPhase
    else if e == ExternalInfoStartEvent then ExternalInfoStartPhase
    else if e == ExternalInfoEndEvent then ExternalInfoEndPhase
    else if e == TxEndEvent then TxEndPhase
    else OutsidePhase
  }

  /**
   * The position of a step in a transaction's fixed order: Start, the
   * drained register and unregister, TXSTART, EXTERNALINFOSTART,
   * ApplyMessage, the revert, EXTERNALINFOEND, TXEND, Stop.
   */
  function Phase(s: Step): nat
  {
    match s
    case Start => StartPhase
    case LoadPlugin(_) => LoadPhase
    case Unregister => UnregisterPhase
    case Send(e, _) => EventPhase(e)
    case Execute(_) => ExecutePhase
    case Revert(_) => RevertPhase
    case Stop => StopPhase
  }

  /** The five event names are distinct, so each has its own phase. */
  lemma EventPhases()
    ensures EventPhase(TxStartEvent) == TxStartPhase && EventPhase(ExternalInfoStartEvent) == ExternalInfoStartPhase
    ensures EventPhase(ExternalInfoEndEvent) == ExternalInfoEndPhase && EventPhase(TxEndEvent) == TxEndPhase
    ensures EventPhase(BlockInfoEvent) == OutsidePhase
  {
    assert |TxStartEvent| == 7 && |ExternalInfoStartEvent| == 17 && |ExternalInfoEndEvent| == 15;
    assert |TxEndEvent| == 5 && |BlockInfoEvent| == 17;
    assert ExternalInfoStartEvent[0] != BlockInfoEvent[0];
  }

  /** Steps occur in Phase order. */
  ghost predicate Ordered(s: seq<Step>)
  {
    forall i, j :: 0 <= i < j < |s| ==> Phase(s[i]) <= Phase(s[j])
  }

  ghost predicate PhasesWithin(s: seq<Step>, lo: nat, hi: nat)
  {
    forall i :: 0 <= i < |s| ==> lo <= Phase(s[i]) <= hi
  }

  /** How many steps of a sequence have a given phase. */
  function CountPhase(s: seq<Step>, p: nat): nat
    decreases |s|
  {
    if s == [] then 0 else (if Phase(s[0]) == p then 1 else 0) + CountPhase(s[1..], p)
  }

  /** Every dispatch in the sequence is of a name in `reg`. */
  ghost predicate SendsRegistered(s: seq<Step>, reg: set<string>)
  {
    forall i :: 0 <= i < |s| && s[i].Send? ==> s[i].event in reg
  }

  lemma {:induction false} CountPhaseAppend(a: seq<Step>, b: seq<Step>, p: nat)
    ensures CountPhase(a + b, p) == CountPhase(a, p) + CountPhase(b, p)
    decreases |a|
  {
    if a == [] {
      assert a + b == b;
    } else {
      assert (a + b)[1..] == a[1..] + b;
      CountPhaseAppend(a[1..], b, p);
    }
  }

  lemma CountPhaseSmall(x: Step, y: Step, p: nat)
    ensures CountPhase([x], p) == (if Phase(x) == p then 1 else 0)
    ensures CountPhase([x, y], p) == (if Phase(x) == p then 1 else 0) + (if Phase(y) == p then 1 else 0)
  {
    assert [x][1..] == [];
    assert CountPhase([x], p) == (if Phase(x) == p then 1 else 0) + CountPhase([], p);
    assert [x, y][1..] == [y];
    assert [y][1..] == [];
    assert CountPhase([y], p) == (if Phase(y) == p then 1 else 0) + CountPhase([], p);
    assert CountPhase([x, y], p) == (if Phase(x) == p then 1 else 0) + CountPhase([y], p);
  }

  lemma OrderedAppend(a: seq<Step>, b: seq<Step>, lo: nat, mid: nat, hi: nat)
    requires Ordered(a) && PhasesWithin(a, lo, mid)
    requires Ordered(b) && PhasesWithin(b, mid, hi)
    requires lo <= mid <= hi
    ensures Ordered(a + b) && PhasesWithin(a + b, lo, hi)
  {
    forall i, j | 0 <= i < j < |a + b|
      ensures Phase((a + b)[i]) <= Phase((a + b)[j])
    {
      if j < |a| {
        assert (a + b)[i] == a[i] && (a + b)[j] == a[j];
      } else if i >= |a| {
        assert (a + b)[i] == b[i - |a|] && (a + b)[j] == b[j - |a|];
      } else {
        assert (a + b)[i] == a[i] && (a + b)[j] == b[j - |a|];
      }
    }
    forall i | 0 <= i < |a + b|
      ensures lo <= Phase((a + b)[i]) <= hi
    {
      if i < |a| {
        assert (a + b)[i] == a[i];
      } else {
        assert (a + b)[i] == b[i - |a|];
      }
    }
  }

  /** An Ordered sequence never has a step of a later phase before one of an earlier phase. */
  lemma OrderedStrict(s: seq<Step>)
    requires Ordered(s)
    ensures forall i, j :: 0 <= i < |s| && 0 <= j < |s| && Phase(s[i]) < Phase(s[j]) ==> i < j
  {
  }

  /** Within the phases of applyTransaction, dispatches stay of registered names under concatenation. */
  lemma TxStepsAppend(a: seq<Step>, b: seq<Step>, reg: set<string>)
    requires PhasesWithin(a, ExecutePhase, StopPhase) && SendsRegistered(a, reg)
    requires PhasesWithin(b, ExecutePhase, StopPhase) && SendsRegistered(b, reg)
    ensures PhasesWithin(a + b, ExecutePhase, StopPhase) && SendsRegistered(a + b, reg)
  {
    forall i | 0 <= i < |a + b|
      ensures ExecutePhase <= Phase((a + b)[i]) <= StopPhase
      ensures (a + b)[i].Send? ==> (a + b)[i].event in reg
    {
      if i < |a| {
        assert (a + b)[i] == a[i];
      } else {
        assert (a + b)[i] == b[i - |a|];
      }
    }
  }

  lemma FinishTxOrdered(reg: set<string>, tx: Tx, pre: CallContext, run: EvmRun)
    ensures Ordered(FinishTx(reg, tx, pre, run).steps) && PhasesWithin(FinishTx(reg, tx, pre, run).steps, ExecutePhase, StopPhase)
  {
    EventPhases();
    var ended := ExecuteSteps(pre, run) + Hook(reg, ExternalInfoEndEvent, EndInfo(tx, run));
    OrderedAppend(ExecuteSteps(pre, run), Hook(reg, ExternalInfoEndEvent, EndInfo(tx, run)), ExecutePhase, ExternalInfoEndPhase, ExternalInfoEndPhase);
    OrderedAppend(ended, if Completes(run) then EndSteps(reg) else [], ExecutePhase, TxEndPhase, StopPhase);
  }

  /**
   * Within one ApplyTransaction the steps follow the fixed order: Start, the
   * drain, TXSTART, EXTERNALINFOSTART, ApplyMessage, the revert,
   * EXTERNALINFOEND, TXEND, Stop. A step of an earlier phase never comes after
   * a step of a later one.
   */
  lemma TransactionStepsOrdered(isReg: bool, regPath: string, isUn: bool, reg: set<string>, tx: Tx, run: EvmRun)
    ensures var s := TransactionSteps(DrainSteps(isReg, regPath, isUn), reg, tx, run);
      forall i, j :: 0 <= i < |s| && 0 <= j < |s| && Phase(s[i]) < Phase(s[j]) ==> i < j
  {
    var drain := DrainSteps(isReg, regPath, isUn);
    var hooks := StartHooks(reg, tx);
    DrainOrdered(isReg, regPath, isUn);
    OrderedAppend([Start], drain, StartPhase, LoadPhase, UnregisterPhase);
    StartHooksOrdered(reg, tx);
    OrderedAppend([Start] + drain, hooks, StartPhase, TxStartPhase, ExternalInfoStartPhase);
    FinishTxOrdered(reg, tx, FreshContext(tx), run);
    OrderedAppend([Start] + drain + hooks, FinishTx(reg, tx, FreshContext(tx), run).steps, StartPhase, ExecutePhase, StopPhase);
    OrderedStrict(TransactionSteps(drain, reg, tx, run));
  }

  lemma DrainOrdered(isReg: bool, regPath: string, isUn: bool)
    ensures Ordered(DrainSteps(isReg, regPath, isUn)) && PhasesWithin(DrainSteps(isReg, regPath, isUn), LoadPhase, UnregisterPhase)
  {
    OrderedAppend(if isReg then [LoadPlugin(regPath)] else [], if isUn then [Unregister] else [], LoadPhase, UnregisterPhase, UnregisterPhase);
  }

  lemma StartHooksOrdered(reg: set<string>, tx: Tx)
    ensures Ordered(StartHooks(reg, tx)) && PhasesWithin(StartHooks(reg, tx), TxStartPhase, ExternalInfoStartPhase)
  {
    EventPhases();
    OrderedAppend(Hook(reg, TxStartEvent, Flag), Hook(reg, ExternalInfoStartEvent, StartInfo(tx)), TxStartPhase, ExternalInfoStartPhase, ExternalInfoStartPhase);
  }

  lemma HookCount(reg: set<string>, event: string, payload: Payload, p: nat)
    ensures CountPhase(Hook(reg, event, payload), p) == (if event in reg && EventPhase(event) == p then 1 else 0)
  {
    CountPhaseSmall(Send(event, payload), Send(event, payload), p);
  }

  lemma FinishTxCounts(reg: set<string>, tx: Tx, pre: CallContext, run: EvmRun, p: nat)
    ensures CountPhase(FinishTx(reg, tx, pre, run).steps, p) ==
        (if p == ExecutePhase then 1 else 0)
        + (if p == RevertPhase && run.post.blockingFlag then 1 else 0)
        + (if p == ExternalInfoEndPhase && ExternalInfoEndEvent in reg then 1 else 0)
        + (if (p == TxEndPhase || p == StopPhase) && TxEndEvent in reg && run.outcome.Executed? && |run.post.callStack| > 0 then 1 else 0)
  {
    EventPhases();
    CountPhaseSmall(Execute(pre), Revert(run.post.snapshotId), p);
    CountPhaseSmall(Send(TxEndEvent, Flag), Stop, p);
    CountPhaseSmall(Revert(run.post.snapshotId), Stop, p);
    CountPhaseAppend([Execute(pre)], if run.post.blockingFlag then [Revert(run.post.snapshotId)] else [], p);
    HookCount(reg, ExternalInfoEndEvent, EndInfo(tx, run), p);
    var ended := ExecuteSteps(pre, run) + Hook(reg, ExternalInfoEndEvent, EndInfo(tx, run));
    CountPhaseAppend(ExecuteSteps(pre, run), Hook(reg, ExternalInfoEndEvent, EndInfo(tx, run)), p);
    CountPhaseAppend(ended, if Completes(run) then EndSteps(reg) else [], p);
  }

  /**
   * One ApplyTransaction: Start once, each drained request at most once,
   * each registered start hook once, ApplyMessage once, exactly one revert
   * when BLOCKING_FLAG is set, EXTERNALINFOEND exactly once when registered
   * (never otherwise), and as many Stops as TXEND dispatches, at most one.
   */
  lemma TransactionStepCounts(isReg: bool, regPath: string, isUn: bool, reg: set<string>, tx: Tx, run: EvmRun, p: nat)
    ensures CountPhase(TransactionSteps(DrainSteps(isReg, regPath, isUn), reg, tx, run), p) ==
        (if p == StartPhase then 1 else 0)
        + (if p == LoadPhase && isReg then 1 else 0)
        + (if p == UnregisterPhase && isUn then 1 else 0)
        + (if p == TxStartPhase && TxStartEvent in reg then 1 else 0)
        + (if p == ExternalInfoStartPhase && ExternalInfoStartEvent in reg then 1 else 0)
        + (if p == ExecutePhase then 1 else 0)
        + (if p == RevertPhase && run.post.blockingFlag then 1 else 0)
        + (if p == ExternalInfoEndPhase && ExternalInfoEndEvent in reg then 1 else 0)
        + (if (p == TxEndPhase || p == StopPhase) && TxEndEvent in reg && run.outcome.Executed? && |run.post.callStack| > 0 then 1 else 0)
  {
    var before := [Start] + DrainSteps(isReg, regPath, isUn) + StartHooks(reg, tx);
    BeforeMessageCounts(isReg, regPath, isUn, reg, tx, p);
    CountPhaseAppend(before, FinishTx(reg, tx, FreshContext(tx), run).steps, p);
    FinishTxCounts(reg, tx, FreshContext(tx), run, p);
  }

  /** The steps of ApplyTransaction before applyTransaction: Start, the drain and the start hooks. */
  lemma BeforeMessageCounts(isReg: bool, regPath: string, isUn: bool, reg: set<string>, tx: Tx, p: nat)
    ensures CountPhase([Start] + DrainSteps(isReg, regPath, isUn) + StartHooks(reg, tx), p) ==
        (if p == StartPhase then 1 else 0)
        + (if p == LoadPhase && isReg then 1 else 0)
        + (if p == UnregisterPhase && isUn then 1 else 0)
        + (if p == TxStartPhase && TxStartEvent in reg then 1 else 0)
        + (if p == ExternalInfoStartPhase && ExternalInfoStartEvent in reg then 1 else 0)
  {
    EventPhases();
    var drain := DrainSteps(isReg, regPath, isUn);
    CountPhaseSmall(Start, Start, p);
    CountPhaseSmall(LoadPlugin(regPath), Unregister, p);
    CountPhaseSmall(Unregister, Unregister, p);
    CountPhaseAppend(if isReg then [LoadPlugin(regPath)] else [], if isUn then [Unregister] else [], p);
    HookCount(reg, TxStartEvent, Flag, p);
    HookCount(reg, ExternalInfoStartEvent, StartInfo(tx), p);
    CountPhaseAppend(Hook(reg, TxStartEvent, Flag), Hook(reg, ExternalInfoStartEvent, StartInfo(tx)), p);
    CountPhaseAppend([Start], drain, p);
    CountPhaseAppend([Start] + drain, StartHooks(reg, tx), p);
  }

  /** Every SendDataToPlugin of one ApplyTransaction is of a name GetOpcodeRegister answered true for. */
  lemma TransactionSendsRegistered(isReg: bool, regPath: string, isUn: bool, reg: set<string>, tx: Tx, run: EvmRun)
    ensures SendsRegistered(TransactionSteps(DrainSteps(isReg, regPath, isUn), reg, tx, run), reg)
  {
  }

  /** The only ApplyMessage of applyTransaction starts from the globals it was handed. */
  lemma FinishTxExecutesFrom(reg: set<string>, tx: Tx, pre: CallContext, run: EvmRun)
    ensures var s := FinishTx(reg, tx, pre, run).steps;
      && s[0] == Execute(pre)
      && forall k :: 0 < k < |s| ==> !s[k].Execute?
  {
    var s := FinishTx(reg, tx, pre, run).steps;
    var head := ExecuteSteps(pre, run);
    var tail := Hook(reg, ExternalInfoEndEvent, EndInfo(tx, run)) + (if Completes(run) then EndSteps(reg) else []);
    assert s == head + tail;
    forall k | 0 < k < |s|
      ensures !s[k].Execute?
    {
      if k < |head| {
        assert s[k] == head[k];
      } else {
        assert s[k] == tail[k - |head|];
      }
    }
  }

  /**
   * The ApplyMessage of one ApplyTransaction starts from the reset globals:
   * its only Execute step records FreshContext(tx), which depends on the
   * transaction alone, so nothing of an earlier transaction's globals reaches it.
   */
  lemma ResetBeforeMessage(isReg: bool, regPath: string, isUn: bool, reg: set<string>, tx: Tx, run: EvmRun)
    ensures var s := TransactionSteps(DrainSteps(isReg, regPath, isUn), reg, tx, run);
      && Execute(FreshContext(tx)) in s
      && (forall k :: 0 <= k < |s| && s[k].Execute? ==> s[k] == Execute(FreshContext(tx)))
  {
    var drain := DrainSteps(isReg, regPath, isUn);
    var before := [Start] + drain + StartHooks(reg, tx);
    var after := FinishTx(reg, tx, FreshContext(tx), run).steps;
    var s := TransactionSteps(drain, reg, tx, run);
    assert s == before + after;
    FinishTxExecutesFrom(reg, tx, FreshContext(tx), run);
    DrainOrdered(isReg, regPath, isUn);
    StartHooksOrdered(reg, tx);
    OrderedAppend([Start], drain, StartPhase, LoadPhase, UnregisterPhase);
    OrderedAppend([Start] + drain, StartHooks(reg, tx), StartPhase, TxStartPhase, ExternalInfoStartPhase);
    assert s[|before|] == Execute(FreshContext(tx));
    forall k | 0 <= k < |s| && s[k].Execute?
      ensures s[k] == Execute(FreshContext(tx))
    {
      if k >= |before| {
        assert s[k] == after[k - |before|];
      }
    }
  }

  lemma FinishTxSendsRegistered(reg: set<string>, tx: Tx, pre: CallContext, run: EvmRun)
    ensures SendsRegistered(FinishTx(reg, tx, pre, run).steps, reg)
  {
  }

  /**
   * Stop is called only right after a TXEND dispatch, and a TXEND dispatch is
   * always followed by Stop.
   */
  lemma StopFollowsTxEnd(reg: set<string>, tx: Tx, pre: CallContext, run: EvmRun)
    ensures var s := FinishTx(reg, tx, pre, run).steps;
      && (forall i :: 0 <= i < |s| && s[i] == Stop ==> 0 < i && s[i - 1] == Send(TxEndEvent, Flag))
      && (forall i :: 0 <= i < |s| && s[i].Send? && s[i].event == TxEndEvent ==> i + 1 < |s| && s[i + 1] == Stop)
  {
    EventPhases();
  }

  /**
   * A set BLOCKING_FLAG after ApplyMessage causes exactly one revert, to the
   * PLUGIN_SNAPSHOT_ID of that moment, right after ApplyMessage and so before
   * any end hook; the flag is left set.
   */
  lemma BlockingFlagRevertsOnce(reg: set<string>, tx: Tx, pre: CallContext, run: EvmRun)
    ensures var r := FinishTx(reg, tx, pre, run);
      && r.steps[0] == Execute(pre)
      && (run.post.blockingFlag ==> r.steps[1] == Revert(run.post.snapshotId))
      && (!run.post.blockingFlag ==> |r.steps| == 1 || !r.steps[1].Revert?)
      && CountPhase(r.steps, RevertPhase) == (if run.post.blockingFlag then 1 else 0)
      && r.ctx.blockingFlag == run.post.blockingFlag
  {
    FinishTxCounts(reg, tx, pre, run, RevertPhase);
  }

  /**
   * An ApplyMessage error: EXTERNALINFOEND, when registered, reports
   * IsSuccess = false; the error is returned; CALL_STACK is not popped, and
   * neither TXEND nor Stop happens.
   */
  lemma MessageErrorPath(reg: set<string>, tx: Tx, pre: CallContext, run: EvmRun)
    requires run.outcome == MessageError
    ensures var r := FinishTx(reg, tx, pre, run);
      && r.outcome == TxFailed(MessageFailed)
      && r.ctx == run.post
      && (ExternalInfoEndEvent in reg <==> Send(ExternalInfoEndEvent, TransInfo(tx.hash, 1, "", "", false)) in r.steps)
      && CountPhase(r.steps, TxEndPhase) == 0 && CountPhase(r.steps, StopPhase) == 0
  {
    FinishTxCounts(reg, tx, pre, run, TxEndPhase);
    FinishTxCounts(reg, tx, pre, run, StopPhase);
  }

  /**
   * A message that executed: EXTERNALINFOEND, when registered, carries call
   * layer 1, IsSuccess = !Failed() and "CREATE" exactly for a creation;
   * CALL_STACK loses exactly its last frame (an empty stack panics); Stop
   * follows TXEND only when TXEND is registered.
   */
  lemma ExecutedPath(reg: set<string>, tx: Tx, pre: CallContext, run: EvmRun)
    requires run.outcome.Executed?
    ensures var r := FinishTx(reg, tx, pre, run); var stack := run.post.callStack;
      && (ExternalInfoEndEvent in reg ==>
            exists p :: Send(ExternalInfoEndEvent, p) in r.steps
              && p.TransInfo? && p.callLayer == 1 && p.txHash == tx.hash
              && p.isSuccess == !run.outcome.failed
              && (p.callType == "CREATE" <==> tx.to.None?)
              && (tx.to.None? ==> p.to == run.created))
      && (|stack| == 0 ==> r.outcome == TxHalted(StackUnderflow))
      && (|stack| > 0 ==>
            && r.outcome.Applied?
            && r.outcome.receipt.failed == run.outcome.failed
            && r.ctx.callStack + [stack[|stack| - 1]] == stack
            && r.ctx == run.post.(callStack := r.ctx.callStack))
      && (Stop in r.steps <==> TxEndEvent in reg && |stack| > 0)
  {
    var p := EndInfo(tx, run);
    assert "CREATE" != "";
    if ExternalInfoEndEvent in reg {
      assert Send(ExternalInfoEndEvent, p) in FinishTx(reg, tx, pre, run).steps;
    }
  }

  /**
   * The process-halting nil read (as written): with EXTERNALINFOEND
   * registered, an ApplyMessage error panics before any end hook, while the
   * corrected FinishTx reports the error through EXTERNALINFOEND.
   */
  lemma NilResultReadPanics(reg: set<string>, tx: Tx, pre: CallContext, run: EvmRun)
    requires ExternalInfoEndEvent in reg && run.outcome == MessageError
    ensures FinishTxAsWritten(reg, tx, pre, run).outcome == TxHalted(NilResult)
    ensures CountPhase(FinishTxAsWritten(reg, tx, pre, run).steps, ExternalInfoEndPhase) == 0
    ensures FinishTx(reg, tx, pre, run).outcome == TxFailed(MessageFailed)
    ensures CountPhase(FinishTx(reg, tx, pre, run).steps, ExternalInfoEndPhase) == 1
  {
    EventPhases();
    FinishTxCounts(reg, tx, pre, run, ExternalInfoEndPhase);
    CountPhaseSmall(Execute(pre), Revert(run.post.snapshotId), ExternalInfoEndPhase);
    CountPhaseAppend([Execute(pre)], if run.post.blockingFlag then [Revert(run.post.snapshotId)] else [], ExternalInfoEndPhase);
  }

  /** Outside that one path the as-written and corrected definitions agree. */
  lemma AsWrittenAgreesElsewhere(reg: set<string>, tx: Tx, pre: CallContext, run: EvmRun)
    requires !(ExternalInfoEndEvent in reg && run.outcome == MessageError)
    ensures FinishTxAsWritten(reg, tx, pre, run) == FinishTx(reg, tx, pre, run)
  {
  }

  /**
   * Process calls applyTransaction directly: none of its steps is a Start, a
   * drained request, a TXSTART or an EXTERNALINFOSTART, every step belongs to
   * ApplyMessage or the end of a transaction, and every dispatch is of a
   * registered name.
   */
  lemma {:induction false} ProcessSkipsStartHooks(reg: set<string>, ctx: CallContext, txs: seq<Tx>, runs: seq<EvmRun>, i: nat)
    requires |txs| == |runs| && i <= |txs|
    ensures var s := ProcessTxs(reg, ctx, txs, runs, i).steps;
      PhasesWithin(s, ExecutePhase, StopPhase) && SendsRegistered(s, reg)
    decreases |txs| - i
  {
    if i < |txs| && txs[i].convertible {
      var t := FinishTx(reg, txs[i], ctx, runs[i]);
      FinishTxOrdered(reg, txs[i], ctx, runs[i]);
      FinishTxSendsRegistered(reg, txs[i], ctx, runs[i]);
      if t.outcome.Applied? {
        ProcessSkipsStartHooks(reg, t.ctx, txs, runs, i + 1);
        TxStepsAppend(t.steps, ProcessTxs(reg, t.ctx, txs, runs, i + 1).steps, reg);
      }
    }
  }

  /**
   * Process dispatches handle_BLOCK_INFO at most once, first: it is
   * registered exactly when the block's steps start with it, and no later
   * step of the block is a handle_BLOCK_INFO dispatch.
   */
  lemma BlockHookFirst(reg: set<string>, number: nat, ctx: CallContext, txs: seq<Tx>, runs: seq<EvmRun>)
    requires |txs| == |runs|
    ensures var s := BlockHook(reg, number) + ProcessTxs(reg, ctx, txs, runs, 0).steps;
      && (BlockInfoEvent in reg <==> |s| > 0 && s[0] == Send(BlockInfoEvent, BlockInfo(number)))
      && (forall i :: 0 < i < |s| ==> !(s[i].Send? && s[i].event == BlockInfoEvent))
  {
    ProcessSkipsStartHooks(reg, ctx, txs, runs, 0);
    var rest := ProcessTxs(reg, ctx, txs, runs, 0).steps;
    var s := BlockHook(reg, number) + rest;
    assert Phase(Send(BlockInfoEvent, BlockInfo(number))) == OutsidePhase;
    forall i | 0 < i < |s|
      ensures !(s[i].Send? && s[i].event == BlockInfoEvent)
    {
      var k := i - |BlockHook(reg, number)|;
      assert s[i] == rest[k];
      assert ExecutePhase <= Phase(rest[k]) <= StopPhase;
    }
    if BlockInfoEvent !in reg && |s| > 0 {
      assert s[0] == rest[0];
      assert ExecutePhase <= Phase(rest[0]) <= StopPhase;
    }
  }

  /**
   * With a handler for EXTERNALINFOSTART and EXTERNALINFOEND only, a direct
   * call to `to` that executes dispatches the start with the target and then
   * the end with the same transaction hash and the outcome.
   */
  lemma CallHooksScenario(tx: Tx, run: EvmRun)
    requires tx.to.Some? && run.outcome.Executed? && |run.post.callStack| > 0 && !run.post.blockingFlag
    ensures TransactionSteps([], {ExternalInfoStartEvent, ExternalInfoEndEvent}, tx, run) ==
      [ Start,
        Send(ExternalInfoStartEvent, TransInfo(tx.hash, 1, "CALL", tx.to.value, false)),
        Execute(FreshContext(tx)),
        Send(ExternalInfoEndEvent, TransInfo(tx.hash, 1, "", "", !run.outcome.failed)) ]
  {
  }
}
