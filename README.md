# Plugin instrumentation of the Noda go-ethereum fork, in Dafny

This fork of go-ethereum wraps transaction execution with plugin hooks. Two
pieces of it are modelled here, and properties of both are proved.

- **The hook/lifecycle controller** of `core/state_processor.go`. For every
  transaction, `ApplyTransaction` first converts it with `tx.AsMessage` and
  returns the error, having done nothing else, when that fails. Otherwise it
  calls `Start()` on the plugin registry. It then drains the pending register/unregister requests left in
  the `dan` globals, resets the `dzd` call-context globals and pushes the
  first frame `"<to>#1"`. It dispatches `TXSTART` and `EXTERNALINFOSTART`,
  then hands over to `applyTransaction`. That function runs the message and
  reverts to `PLUGIN_SNAPSHOT_ID` when a plugin set `BLOCKING_FLAG`. It then
  dispatches `EXTERNALINFOEND`, pops one frame, and dispatches `TXEND`
  followed by `Stop()`. Every dispatch is guarded by `GetOpcodeRegister` on
  the same event name. `Process` dispatches `handle_BLOCK_INFO` once per
  block and then calls `applyTransaction` directly for each transaction, so
  the drain, the reset and the start hooks do not happen on that path.
- **The plugin loader** of `cmd/pluginManage/pluginSetUp.go`.
  `RegisterPlugin` checks an artifact in a fixed order: open it, look up
  `Register`, check its type, and decode the `RegisterInfo` descriptor
  (`pluginname` and the `option` map from opcode to handler symbol). Then,
  for each option entry, it resolves and type-checks the handler and calls
  `RegisterOpcode` with a fresh monitor. `SetUpPlugin` does this for every
  discovered file.

Layout:

- `wrappers.dfy` (module `Wrappers`) holds `Option` and `Result`.
- `plugin_manage.dfy` (module `PluginManage`) holds the loader:
  - the artifact, descriptor and monitor datatypes;
  - the registry `PluginManages` as a class, with the set of registered names
    and the log of `RegisterOpcode` calls;
  - pure specifications `RegisterPluginSpec`, `RegisterEntries`, `SetUpOver`
    and `SetUpSpec`;
  - the imperative `RegisterPlugin`, `RegisterOpcodes`, `SetUpPlugin` and
    `LoadAll`, each proved equal to its specification.
- `hooks.dfy` (module `Hooks`) says, as values, which steps one transaction
  and one block produce:
  - registry lifecycle calls, hook dispatches with their payload fields,
    ApplyMessage and reverts;
  - lemmas on order, counts, guards and the error and executed paths.
- `state_processor.dfy` (module `Core`) holds the class `HookController`:
  - fields for the `dzd` globals, the `dan` requests, a reference to the
    registry, and the trace of steps taken;
  - methods for `ApplyTransaction`, `applyTransaction` and `Process`, each
    proved to append exactly the steps module `Hooks` specifies and to leave
    the state that module says.

The opaque collaborators are parameters:
- One run of ApplyMessage is an `EvmRun`. It holds the outcome (error,
  failed or succeeded), the `dzd` globals as the interpreter leaves them (an
  arbitrary value), the logs, and the address a creation yields.
- The plugin directory is a map from path to artifact. An artifact says
  whether `plugin.Open` succeeds, gives its symbol table by symbol kind, and
  gives what `json.Unmarshal` makes of `Register()`'s bytes.
- A panic or `os.Exit` is a `HaltReason` or `Halt` outcome. The
  registrations made before it are kept.
- Go's map iteration order is unspecified, so the `option` map is a
  sequence of pairs in one fixed order per artifact. Go may visit the
  entries in a different order on each `range`, so every load of the same
  path here visits them in that one order. No lemma depends on the order.

## Model

| member | source | states |
|---|---|---|
| PluginManage.PluginManages.RegisterOpcode | ethereum/go-ethereum/cmd/pluginManage/pluginSetUp.go:93 | the call is appended to the registry's log and the opcode becomes registered |
| PluginManage.PluginManages.UnRegisterPlg | ethereum/go-ethereum/core/state_processor.go:251 | names are only removed: the registered set becomes its intersection with the names kept, so it can only shrink; the call log is unchanged |
| PluginManage.LadderHaltsBeforeRegistering | ethereum/go-ethereum/cmd/pluginManage/pluginSetUp.go:36-71 | a failed open, a missing `Register`, a `Register` of the wrong type and a failed decode each halt with their own reason before any RegisterOpcode call |
| PluginManage.RegisterEntriesFacts | ethereum/go-ethereum/cmd/pluginManage/pluginSetUp.go:74-94 | the entry loop makes one call per entry, in order, up to the first entry whose handler is missing or of the wrong type. Each call is built from its entry and its handler resolved. The loop stops early exactly when it halts, and the halt is that entry's fault |
| PluginManage.SuccessRegistersEveryEntry | ethereum/go-ethereum/cmd/pluginManage/pluginSetUp.go:73-96 | a load that returns true passed every ladder step. It made exactly one RegisterOpcode call per option entry, in order, with a monitor whose plugin name, logger, send function, opcode and IAL option come from that entry. The registered opcodes are exactly the option's keys |
| PluginManage.SuccessRegistersOnePerKey | ethereum/go-ethereum/cmd/pluginManage/pluginSetUp.go:18-93 | for a decoded descriptor, whose `option` keys are distinct as a Go map's are, a load with N entries that returns true registers exactly N distinct opcodes, one per declared event name, each bound to a handler that resolved to a send function |
| PluginManage.HandlerFaultKeepsEarlierEntries | ethereum/go-ethereum/cmd/pluginManage/pluginSetUp.go:79-93 | after a valid descriptor, a halt is a missing or wrongly typed handler at the entry where the loop stopped; every earlier entry resolved and stays registered |
| PluginManage.RegisterPlugin | ethereum/go-ethereum/cmd/pluginManage/pluginSetUp.go:36-97 | the registry log and names grow by exactly the calls of `RegisterPluginSpec`; the result is true exactly when the load did not halt, and otherwise carries the halt reason |
| PluginManage.RegisterOpcodes | ethereum/go-ethereum/cmd/pluginManage/pluginSetUp.go:73-94 | the loop over the option entries makes exactly the calls and the halt of `RegisterEntries` |
| PluginManage.SetUpOverStopsAtFirstHalt | ethereum/go-ethereum/cmd/pluginManage/pluginSetUp.go:28-32 | the file loop stops at the first load that halts, and every earlier load returned true. Its calls are those of the earlier loads, in order, followed by the halting load's partial calls; with no halt, all loads' calls |
| PluginManage.SetUpStopsAtFirstHalt | ethereum/go-ethereum/cmd/pluginManage/pluginSetUp.go:21-34 | the same for the discovered files: one RegisterPlugin per file in discovery order; the first file that halts ends the set-up, and its index is reported |
| PluginManage.LoadFile | ethereum/go-ethereum/cmd/pluginManage/pluginSetUp.go:31 | one iteration changes the registry by exactly that file's load |
| PluginManage.LoadAll | ethereum/go-ethereum/cmd/pluginManage/pluginSetUp.go:28-32 | the loop changes the registry by exactly the calls of `SetUpOver` and stops with its halt |
| PluginManage.SetUpPlugin | ethereum/go-ethereum/cmd/pluginManage/pluginSetUp.go:21-34 | the registry log and names grow by exactly the calls of `SetUpSpec`, and the halt reported is its halt |
| Hooks.FreshContext | ethereum/go-ethereum/core/state_processor.go:256-269 | after the reset, CALL_LAYER equals the stack depth (1 with a direct target, else 0). CALL_STACK is `[to + "#1"]` and ALL_STACK `[to]`, or both empty for a creation. BLOCKING_FLAG is false, PLUGIN_SNAPSHOT_ID is 0, CALLVALID_MAP is empty, EXTERNAL_FLAG is true and TxHash is the hash. The result depends on the transaction alone |
| Hooks.FinishTxOrdered | ethereum/go-ethereum/core/state_processor.go:127-217 | applyTransaction's steps follow the order ApplyMessage, revert, EXTERNALINFOEND, TXEND, Stop |
| Hooks.DrainOrdered | ethereum/go-ethereum/core/state_processor.go:239-254 | the register request is drained before the unregister request |
| Hooks.StartHooksOrdered | ethereum/go-ethereum/core/state_processor.go:271-302 | TXSTART is dispatched before EXTERNALINFOSTART |
| Hooks.TransactionStepsOrdered | ethereum/go-ethereum/core/state_processor.go:236-305 | within one ApplyTransaction, a step of an earlier phase never comes after a step of a later one. The phase order is Start; the drain; TXSTART; EXTERNALINFOSTART; ApplyMessage; the revert; EXTERNALINFOEND; TXEND; Stop |
| Hooks.FinishTxCounts | ethereum/go-ethereum/core/state_processor.go:127-217 | applyTransaction has exactly one ApplyMessage and one revert when BLOCKING_FLAG is set, none otherwise. EXTERNALINFOEND is dispatched once when registered, never otherwise. TXEND and Stop each happen once when TXEND is registered and the message executed with a frame to pop, never otherwise |
| Hooks.TransactionStepCounts | ethereum/go-ethereum/core/state_processor.go:236-305 | the exact count of every step kind in one ApplyTransaction. There is one Start. Each drained request happens exactly when it was pending. Each start hook happens exactly when registered. The counts of `FinishTxCounts` follow |
| Hooks.TransactionSendsRegistered | ethereum/go-ethereum/core/state_processor.go:236-305 | every dispatch of one ApplyTransaction is of a name in the registered set |
| Hooks.FinishTxSendsRegistered | ethereum/go-ethereum/core/state_processor.go:136-216 | every dispatch of applyTransaction is of a registered name |
| Hooks.StopFollowsTxEnd | ethereum/go-ethereum/core/state_processor.go:214-217 | Stop occurs only right after a TXEND dispatch, and every TXEND dispatch is right before a Stop |
| Hooks.BlockingFlagRevertsOnce | ethereum/go-ethereum/core/state_processor.go:130-132 | ApplyMessage comes first. A set BLOCKING_FLAG gives exactly one revert, to the current PLUGIN_SNAPSHOT_ID, right after ApplyMessage and so before any end hook. A clear flag gives none. The flag is left as it was |
| Hooks.MessageErrorPath | ethereum/go-ethereum/core/state_processor.go:144-152 | on an ApplyMessage error the error is returned and CALL_STACK is not popped. EXTERNALINFOEND with IsSuccess false is among the steps exactly when it is registered. Neither TXEND nor Stop happens |
| Hooks.ExecutedPath | ethereum/go-ethereum/core/state_processor.go:166-217 | on the executed path, a registered EXTERNALINFOEND carries call layer 1, the hash, IsSuccess = !Failed(), and "CREATE" exactly for a creation, with the created address as `To`. An empty CALL_STACK halts. Otherwise the receipt records the failure flag and CALL_STACK loses exactly its last frame, with nothing else in the globals changed. Stop happens exactly when TXEND is registered and a frame was popped |
| Hooks.NilResultReadPanics | ethereum/go-ethereum/core/state_processor.go:136-141 | as written, an ApplyMessage error with EXTERNALINFOEND registered halts before any end hook, while the corrected definition reports the error through exactly one EXTERNALINFOEND |
| Hooks.AsWrittenAgreesElsewhere | ethereum/go-ethereum/core/state_processor.go:136-152 | on every other input the as-written and corrected definitions of applyTransaction agree |
| Hooks.ProcessTxsBounds | ethereum/go-ethereum/core/state_processor.go:102-114 | Process's loop gathers one receipt per transaction, or stops at some transaction `k` of the block. In that case it has gathered exactly one receipt for each earlier transaction before Process discards them and returns only the error |
| Hooks.ProcessReceiptsInOrder | ethereum/go-ethereum/core/state_processor.go:102-114 | receipt j of Process's loop is the receipt applyTransaction returned for transaction j, with that transaction's hash, in block order. The logs are the receipts' logs concatenated in the same order |
| Hooks.ProcessCarriesContext | ethereum/go-ethereum/core/state_processor.go:102-212 | Process does not reset the globals: its first ApplyMessage starts from the globals it was called with, and each next one from the globals the previous transaction left with one CALL_STACK frame popped |
| Hooks.ProcessSkipsStartHooks | ethereum/go-ethereum/core/state_processor.go:102-114 | Process's loop never takes a Start, a drained request, a TXSTART or an EXTERNALINFOSTART step, and only dispatches registered names |
| Hooks.BlockHookFirst | ethereum/go-ethereum/core/state_processor.go:79-114 | a block's steps start with handle_BLOCK_INFO exactly when it is registered, and no later step is a handle_BLOCK_INFO dispatch |
| Hooks.FinishTxExecutesFrom | ethereum/go-ethereum/core/state_processor.go:127 | applyTransaction runs ApplyMessage once, first, starting from the globals it is handed |
| Hooks.ResetBeforeMessage | ethereum/go-ethereum/core/state_processor.go:256-305 | in one ApplyTransaction the only ApplyMessage starts from `FreshContext(tx)`, which depends on the transaction alone, so no earlier transaction's globals reach it |
| Hooks.CallHooksScenario | ethereum/go-ethereum/core/state_processor.go:271-305 | with only the external-info hooks registered, a direct call that executes yields exactly Start, EXTERNALINFOSTART with "CALL" and the target, ApplyMessage, and EXTERNALINFOEND with the hash and the outcome |
| Core.HookController.Drain | ethereum/go-ethereum/core/state_processor.go:239-254 | a pending registration loads the plugin at RegPath, then RegPath is cleared and IsReg becomes false. A pending unregistration calls UnRegisterPlg, then IsUn becomes false and UnPlg is cleared. A load that halts stops there with both requests as they were. The registry changes by exactly the load's calls |
| Core.HookController.BeginContext | ethereum/go-ethereum/core/state_processor.go:256-269 | the globals become `FreshContext(tx)`; nothing else changes |
| Core.HookController.SendStartHooks | ethereum/go-ethereum/core/state_processor.go:271-302 | the TXSTART and EXTERNALINFOSTART dispatches, each only if registered, are appended; nothing else changes |
| Core.HookController.RunMessage | ethereum/go-ethereum/core/state_processor.go:127-132 | ApplyMessage is appended with the globals it starts from, then the revert of a set BLOCKING_FLAG; the globals become the run's post state |
| Core.HookController.SendEndHook | ethereum/go-ethereum/core/state_processor.go:133-210 | the staged EXTERNALINFOEND payload is appended only when registered, with the fields each path fills in |
| Core.HookController.ApplyTx | ethereum/go-ethereum/core/state_processor.go:121-220 | applyTransaction appends exactly `FinishTx`'s steps, with ApplyMessage started from the globals as they were, and leaves its outcome and globals |
| Core.HookController.ApplyTransaction | ethereum/go-ethereum/core/state_processor.go:226-306 | an unconvertible message changes nothing. Otherwise a halting load ends after Start and the load, with the registry grown by the load's calls and the requests and globals as they were. A drain that completes is followed by exactly `TransactionSteps`, whose ApplyMessage starts from the reset globals `FreshContext(tx)`, with the registry, requests, outcome and globals as specified |
| Core.HookController.Process | ethereum/go-ethereum/core/state_processor.go:64-119 | the block hook, then exactly the steps, receipts, logs, abort and globals of `ProcessTxs` from the first transaction, whose first ApplyMessage starts from the globals as Process found them |
| Core.HookController.ApplyAll | ethereum/go-ethereum/core/state_processor.go:102-114 | the transaction loop appends exactly `ProcessTxs`'s steps and gathers its receipts and logs, or its abort |
| Core.HookController.ApplyAt | ethereum/go-ethereum/core/state_processor.go:107-113 | one convertible transaction of the loop appends exactly the steps of `FinishTx` from the globals as they were, leaves its outcome and globals, and leaves the loop where `ProcessTxs` continues |

## Left out

- ApplyMessage and the interpreter are not modelled. The dispatches a
  plugin gets during execution are not modelled either. One run is a single
  `Execute` step that records the `dzd` globals it starts from; its effect on
  them is an arbitrary post-state.
- SendDataToPlugin, Start and Stop are taken to leave the `dzd` globals
  unchanged; only ApplyMessage changes them. A plugin handler that sets
  BLOCKING_FLAG or PLUGIN_SNAPSHOT_ID, or alters the call stack, while it
  handles TXSTART, EXTERNALINFOSTART, EXTERNALINFOEND or TXEND is not
  modelled. So `Hooks.ResetBeforeMessage` and `Hooks.BlockingFlagRevertsOnce`
  hold only under this assumption: the first says ApplyMessage starts from
  `FreshContext(tx)`, the second that the flag is left as ApplyMessage set it.
- Gas accounting, `GasPool`, `usedGas`, `IntermediateRoot`/`Finalise`,
  bloom, block hash, transaction index and `statedb.Prepare` are left out.
  The receipt keeps only the hash, the failure flag, the created address
  and the logs.
- The DAO fork and `engine.Finalize` are left out. They are block
  processing, not instrumentation.
- `vmenv.SetTxStart(true)` in ApplyTransaction (state_processor.go:236)
  is left out. It sets a flag on the fresh EVM that only the interpreter
  reads, so it can affect only the opaque ApplyMessage. Process's EVM
  never gets it. No contract depends on it.
- Payloads keep only some fields:
  - the block payload keeps the block number;
  - the transaction payloads keep `TxHash`, `CallLayer`, `CallType`, `To`
    and `IsSuccess`.

  Left out are:
  - the other header fields of the block payload;
  - the transaction payloads' `Op`, `From`, `BlockNumber`, `BlockTime`,
    `Value`, `GasPrice`, `GasLimit`, `GasUsed`, `Nonce`, `CallInfo` and
    `CreateInfo`;
  - the serialisers `SendBlockInfo`, `SendTransInfo` and `SendFlag`.
- The registry implementation is not shown in the source. `PluginManages`
  is reduced to:
  - the set `GetOpcodeRegister` answers for;
  - that set after `RegisterOpcode` (the opcode is added; no overwrite
    semantics are assumed);
  - the log of `RegisterOpcode` calls.

  `Start` and `Stop` appear only as steps in the trace.
- PluginManage.PluginManages.UnRegisterPlg: which names stay registered is a
  parameter, because the source of `UnRegisterPlg` is not shown; the model
  promises only that it removes names and never adds one.
- Core.HookController.ApplyTx: follows the corrected `Hooks.FinishTx`, not
  `Hooks.FinishTxAsWritten`. With EXTERNALINFOEND registered and an
  ApplyMessage error, it dispatches EXTERNALINFOEND with IsSuccess false and
  returns the error, where the code as written panics at
  state_processor.go:139 (see "## Findings").
- Core.HookController.ApplyTransaction: inherits that corrected error path
  from ApplyTx.
- Core.HookController.Process: inherits that corrected error path from ApplyTx.
- Core.HookController.ApplyAll: inherits that corrected error path from ApplyTx.
- Core.HookController.ApplyAt: inherits that corrected error path from ApplyTx.
- `json.Unmarshal` into a Go map cannot produce duplicate `option` keys, but
  the descriptor value can hold them. `PluginManage.SuccessRegistersOnePerKey`
  states the one-per-key count for descriptors with distinct keys.
- `dan.Clear` is not shown, so the model assumes the empty string.
- `filepath.Glob`, `os.Stat`/`os.Mkdir` and the hard-coded plugin directory
  are left out; the discovered files are a parameter. The `fmt` output and
  the exit codes are also left out; the halt reasons keep which of panic or
  exit ends the process.
- `plugin.Open`, `Lookup`, the runtime type assertions and `json.Unmarshal`
  are foreign code. They are folded into the artifact value.
- `tx.AsMessage` is one flag per transaction, and its error is a
  `NotConvertible` abort.
- The `RegisterInfo` descriptor is kept as its two fields, with the option
  map as a sequence of pairs. The JSON field names matter only to the
  decoder, which is not modelled.

## Findings

| source | as written | input that shows it | evidently intended | confidence | as-written member | corrected member |
|---|---|---|---|---|---|---|
| ethereum/go-ethereum/core/state_processor.go:139 | `tcend.GasUsed = result.UsedGas` runs before the `err` check whenever EXTERNALINFOEND is registered | EXTERNALINFOEND registered and an ApplyMessage that returns an error with a nil result: the read panics and the process halts (`Hooks.NilResultReadPanics`) | report the error through EXTERNALINFOEND with IsSuccess false, as lines 144-150 do, without reading the result (`Hooks.MessageErrorPath`) | not executed; it relies on ApplyMessage returning a nil result with its error, as upstream go-ethereum does, and core/state_transition.go is not part of this model | Hooks.FinishTxAsWritten | Hooks.FinishTx |
