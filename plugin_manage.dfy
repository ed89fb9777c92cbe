/**
 * The plugin loader of cmd/pluginManage: `RegisterPlugin` validates one plugin
 * artifact step by step and binds each opcode it declares to a fresh monitor in
 * the shared registry; `SetUpPlugin` does that for every discovered artifact.
 *
 * Go's plugin loader, its type assertions and the JSON decoder are foreign
 * code, so an artifact is a value that already says what they would answer.
 * A panic or an os.Exit ends the process: the model returns a `HaltReason`
 * and keeps every registration made before it.
 */
module PluginManage {
  import opened Wrappers

  /** The dynamic type of an exported symbol, as the type assertions see it. */
  datatype SymbolKind =
    | RegisterFunc   // func() []byte
    | SendFunc       // func(*collector.AllCollector) (byte, string)
    | OtherType

  /**
   * RegisterInfo, the descriptor a plugin's `Register()` returns as JSON:
   * `pluginname` and the `option` map from opcode to handler symbol. The map
   * is a sequence of pairs in the order the Go range loop happens to visit it.
   */
  datatype RegisterInfo = RegisterInfo(pluginName: string, opCode: seq<(string, string)>)

  /**
   * A plugin artifact (.so file): whether plugin.Open succeeds, its symbol
   * table, and what json.Unmarshal makes of the bytes `Register()` returns.
   */
  datatype Artifact = Artifact(opens: bool, symbols: map<string, SymbolKind>, descriptor: Option<RegisterInfo>)

  /** The plugin directory: the artifact at each path; plugin.Open fails on any other path. */
  type FileSystem = map<string, Artifact>

  function ArtifactAt(fs: FileSystem, path: string): Artifact
  {
    if path in fs then fs[path] else Artifact(false, map[], None)
  }

  /** MonitorType after its setters ran; `sendFunc` names the resolved symbol. */
  datatype Monitor = Monitor(pluginName: string, logger: string, sendFunc: string, opcode: string, ialOption: string)

  /** One `manage.RegisterOpcode(opcode, &monitor)` call. */
  datatype Registration = Registration(opcode: string, monitor: Monitor)

  /** Why RegisterPlugin ended the process. */
  datatype HaltReason =
    | OpenFailed                          // os.Exit(-1)
    | RegisterMissing                     // panic
    | RegisterWrongType                   // panic
    | DecodeFailed                        // panic
    | SendFuncMissing(symbol: string)     // panic
    | SendFuncWrongType(symbol: string)   // os.Exit(0)

  /** The RegisterOpcode calls a load makes, and the halt that ended it, if any. */
  datatype LoadResult = LoadResult(calls: seq<Registration>, halt: Option<HaltReason>)

  /** The loads of a whole plugin directory; `halted` names the index of the file that halted. */
  datatype SetUpResult = SetUpResult(calls: seq<Registration>, halted: Option<(nat, HaltReason)>)

  /** The opcodes a sequence of RegisterOpcode calls names. */
  function Opcodes(calls: seq<Registration>): set<string>
  {
    set c | c in calls :: c.opcode
  }

  /** The opcodes (keys) of a descriptor's option map. */
  function Keys(entries: seq<(string, string)>): set<string>
  {
    set e | e in entries :: e.0
  }

  lemma OpcodesAppend(a: seq<Registration>, b: seq<Registration>)
    ensures Opcodes(a + b) == Opcodes(a) + Opcodes(b)
  {
  }

  /**
   * The registry after the calls made so far and then `calls`: the log is
   * extended by `calls` and the registered names by their opcodes.
   */
  lemma Absorb(log: seq<Registration>, names: set<string>, done: seq<Registration>, calls: seq<Registration>)
    ensures (log + done) + calls == log + (done + calls)
    ensures (names + Opcodes(done)) + Opcodes(calls) == names + Opcodes(done + calls)
  {
    OpcodesAppend(done, calls);
  }

  /**
   * The opcode registry (`PluginManages`). Its implementation is not part of
   * this model: it is known only through the names GetOpcodeRegister answers
   * true for and the log of RegisterOpcode calls.
   */
  class PluginManages {
    var registered: set<string>
    var registrations: seq<Registration>

    constructor ()
      ensures registered == {} && registrations == []
    {
      registered := {};
      registrations := [];
    }

    /** `GetOpcodeRegister(name)`: is a handler bound to this event name? */
    predicate GetOpcodeRegister(name: string)
      reads this
    {
      name in registered
    }

    /** `RegisterOpcode(opcode, monitor)`: the opcode becomes registered. */
    method RegisterOpcode(opcode: string, monitor: Monitor)
      modifies this
      ensures registrations == old(registrations) + [Registration(opcode, monitor)]
      ensures registered == old(registered) + {opcode}
    {
      registrations := registrations + [Registration(opcode, monitor)];
      registered := registered + {opcode};
    }

    /**
     * `UnRegisterPlg()`: it only removes names; which ones stay registered is
     * decided by code not shown, so the names it would keep are a parameter.
     */
    method UnRegisterPlg(kept: set<string>)
      modifies this
      ensures registered == old(registered) * kept && registrations == old(registrations)
      ensures registered <= old(registered)
    {
      registered := registered * kept;
    }
  }

  /** The validation ladder before the loop: open, look up `Register`, check its type, decode. */
  function Validate(a: Artifact): Result<RegisterInfo, HaltReason>
  {
    if !a.opens then Err(OpenFailed)
    else if "Register" !in a.symbols then Err(RegisterMissing)
    else if a.symbols["Register"] != RegisterFunc then Err(RegisterWrongType)
    else if a.descriptor.None? then Err(DecodeFailed)
    else Ok(a.descriptor.value)
  }

  /** Why resolving a handler symbol halts, if it does: missing panics, wrong type exits. */
  function SendFuncFault(symbols: map<string, SymbolKind>, symbol: string): Option<HaltReason>
  {
    if symbol !in symbols then Some(SendFuncMissing(symbol))
    else if symbols[symbol] != SendFunc then Some(SendFuncWrongType(symbol))
    else None
  }

  /** The RegisterOpcode call the loop makes for one option entry: a monitor built from the entry. */
  function EntryCall(name: string, entry: (string, string)): Registration
  {
    Registration(entry.0, Monitor(name, name, entry.1, entry.0, entry.0))
  }

  /**
   * The registration loop over the option entries from position `i`, in
   * iteration order. It makes one call per entry up to the first entry whose
   * handler does not resolve, and keeps the calls already made when it halts there.
   */
  function RegisterEntries(name: string, symbols: map<string, SymbolKind>, entries: seq<(string, string)>, i: nat): LoadResult
    requires i <= |entries|
    decreases |entries| - i
  {
    if i == |entries| then LoadResult([], None)
    else
      match SendFuncFault(symbols, entries[i].1)
      case Some(fault) => LoadResult([], Some(fault))
      case None =>
        var rest := RegisterEntries(name, symbols, entries, i + 1);
        LoadResult([EntryCall(name, entries[i])] + rest.calls, rest.halt)
  }

  /**
   * What the loop has done when it stops: every entry before the stopping
   * point resolved and is bound to a monitor built from it, it stops early
   * exactly when it halts, and a halt is the fault of the entry where it stopped.
   */
  lemma {:induction false} RegisterEntriesFacts(name: string, symbols: map<string, SymbolKind>, entries: seq<(string, string)>, i: nat)
    requires i <= |entries|
    ensures var r := RegisterEntries(name, symbols, entries, i);
      && |r.calls| <= |entries| - i
      && (r.halt.None? <==> |r.calls| == |entries| - i)
      && (forall k :: 0 <= k < |r.calls| ==>
            r.calls[k] == EntryCall(name, entries[i + k]) && SendFuncFault(symbols, entries[i + k].1).None?)
      && (r.halt.Some? ==> r.halt == SendFuncFault(symbols, entries[i + |r.calls|].1))
    decreases |entries| - i
  {
    if i < |entries| && SendFuncFault(symbols, entries[i].1).None? {
      RegisterEntriesFacts(name, symbols, entries, i + 1);
      var r := RegisterEntries(name, symbols, entries, i);
      var rest := RegisterEntries(name, symbols, entries, i + 1);
      assert r.calls == [EntryCall(name, entries[i])] + rest.calls;
      forall k | 1 <= k < |r.calls|
        ensures r.calls[k] == EntryCall(name, entries[i + k]) && SendFuncFault(symbols, entries[i + k].1).None?
      {
        assert r.calls[k] == rest.calls[k - 1];
        assert i + k == (i + 1) + (k - 1);
      }
    }
  }

  /** Everything `RegisterPlugin` does to the registry, and how it ends. */
  function RegisterPluginSpec(a: Artifact): LoadResult
  {
    match Validate(a)
    case Err(e) => LoadResult([], Some(e))
    case Ok(info) => RegisterEntries(info.pluginName, a.symbols, info.opCode, 0)
  }

  /** Each step of the validation ladder halts with its own reason before any RegisterOpcode call. */
  lemma LadderHaltsBeforeRegistering(a: Artifact)
    ensures !a.opens ==> RegisterPluginSpec(a) == LoadResult([], Some(OpenFailed))
    ensures a.opens && "Register" !in a.symbols ==> RegisterPluginSpec(a) == LoadResult([], Some(RegisterMissing))
    ensures a.opens && "Register" in a.symbols && a.symbols["Register"] != RegisterFunc ==>
      RegisterPluginSpec(a) == LoadResult([], Some(RegisterWrongType))
    ensures a.opens && "Register" in a.symbols && a.symbols["Register"] == RegisterFunc && a.descriptor.None? ==>
      RegisterPluginSpec(a) == LoadResult([], Some(DecodeFailed))
  {
  }

  lemma {:induction false} KeysOfCalls(calls: seq<Registration>, entries: seq<(string, string)>)
    requires |calls| == |entries|
    requires forall i :: 0 <= i < |calls| ==> calls[i].opcode == entries[i].0
    ensures Opcodes(calls) == Keys(entries)
    decreases |calls|
  {
    if calls != [] {
      KeysOfCalls(calls[..|calls| - 1], entries[..|entries| - 1]);
    }
  }

  /**
   * A load that returns true made exactly one RegisterOpcode call per option
   * entry, in order, each with a monitor built from that entry, and every
   * declared opcode is now registered.
   */
  lemma SuccessRegistersEveryEntry(a: Artifact)
    requires RegisterPluginSpec(a).halt.None?
    ensures Validate(a).Ok? && a.descriptor.Some?
    ensures var info := a.descriptor.value; var calls := RegisterPluginSpec(a).calls;
      && |calls| == |info.opCode|
      && (forall i :: 0 <= i < |calls| ==>
            calls[i] == Registration(info.opCode[i].0,
              Monitor(info.pluginName, info.pluginName, info.opCode[i].1, info.opCode[i].0, info.opCode[i].0)))
      && Opcodes(calls) == Keys(info.opCode)
  {
    var info := a.descriptor.value;
    var calls := RegisterPluginSpec(a).calls;
    RegisterEntriesFacts(info.pluginName, a.symbols, info.opCode, 0);
    KeysOfCalls(calls, info.opCode);
  }

  /**
   * The option entries have pairwise distinct opcodes, as the keys of the
   * Go map `option` a decoded descriptor fills always do.
   */
  predicate DistinctKeys(entries: seq<(string, string)>)
  {
    forall j, k :: 0 <= j < k < |entries| ==> entries[j].0 != entries[k].0
  }

  lemma KeysSnoc(init: seq<(string, string)>, last: (string, string))
    ensures Keys(init + [last]) == Keys(init) + {last.0}
  {
    assert forall e :: e in init + [last] <==> e in init || e == last;
  }

  /** Distinct keys: as many opcodes as entries. */
  lemma {:induction false} DistinctKeysCount(entries: seq<(string, string)>)
    requires DistinctKeys(entries)
    ensures |Keys(entries)| == |entries|
    decreases |entries|
  {
    if entries != [] {
      var init := entries[..|entries| - 1];
      var last := entries[|entries| - 1];
      assert DistinctKeys(init) by {
        forall j, k | 0 <= j < k < |init|
          ensures init[j].0 != init[k].0
        {
          assert init[j] == entries[j] && init[k] == entries[k];
        }
      }
      DistinctKeysCount(init);
      KeysSnoc(init, last);
      assert entries == init + [last];
      assert last.0 !in Keys(init) by {
        forall e | e in init
          ensures e.0 != last.0
        {
          var j :| 0 <= j < |init| && init[j] == e;
          assert entries[j] == e;
        }
      }
    }
  }

  /**
   * For a decoded descriptor (distinct keys) with N entries, a load that
   * returns true leaves exactly N opcodes registered by it, one per declared
   * event name, each bound to a handler that resolved to a send function.
   */
  lemma SuccessRegistersOnePerKey(a: Artifact)
    requires RegisterPluginSpec(a).halt.None?
    requires a.descriptor.Some? && DistinctKeys(a.descriptor.value.opCode)
    ensures var info := a.descriptor.value; var calls := RegisterPluginSpec(a).calls;
      && |Opcodes(calls)| == |calls| == |info.opCode|
      && Opcodes(calls) == Keys(info.opCode)
      && (forall i :: 0 <= i < |calls| ==> calls[i].monitor.sendFunc in a.symbols && a.symbols[calls[i].monitor.sendFunc] == SendFunc)
  {
    var info := a.descriptor.value;
    SuccessRegistersEveryEntry(a);
    RegisterEntriesFacts(info.pluginName, a.symbols, info.opCode, 0);
    DistinctKeysCount(info.opCode);
  }

  /**
   * A handler that is missing or of the wrong type halts the load at its
   * entry; the entries before it stay registered (the loop is not transactional).
   */
  lemma HandlerFaultKeepsEarlierEntries(a: Artifact)
    requires Validate(a).Ok?
    requires RegisterPluginSpec(a).halt.Some?
    ensures var entries := a.descriptor.value.opCode; var r := RegisterPluginSpec(a);
      && |r.calls| < |entries|
      && r.halt == SendFuncFault(a.symbols, entries[|r.calls|].1)
      && (r.halt.value.SendFuncMissing? || r.halt.value.SendFuncWrongType?)
      && (forall i :: 0 <= i < |r.calls| ==> r.calls[i].opcode == entries[i].0 && SendFuncFault(a.symbols, entries[i].1).None?)
  {
    RegisterEntriesFacts(a.descriptor.value.pluginName, a.symbols, a.descriptor.value.opCode, 0);
  }

  /** The calls made so far, then what the rest of a loop makes. */
  lemma Prepend<T>(done: seq<T>, now: seq<T>, later: seq<T>)
    ensures done + (now + later) == (done + now) + later
  {
  }

  /**
   * `RegisterPlugin(manage, path)` on the artifact found at `path`: the
   * ladder, then the registration loop.
   */
  method RegisterPlugin(manage: PluginManages, a: Artifact) returns (r: Result<bool, HaltReason>)
    modifies manage
    ensures manage.registrations == old(manage.registrations) + RegisterPluginSpec(a).calls
    ensures manage.registered == old(manage.registered) + Opcodes(RegisterPluginSpec(a).calls)
    ensures r.Ok? <==> RegisterPluginSpec(a).halt.None?
    ensures r.Ok? ==> r.value
    ensures r.Err? ==> RegisterPluginSpec(a).halt == Some(r.error)
  {
    if !a.opens {
      return Err(OpenFailed);
    }
    if "Register" !in a.symbols {
      return Err(RegisterMissing);
    }
    if a.symbols["Register"] != RegisterFunc {
      return Err(RegisterWrongType);
    }
    if a.descriptor.None? {
      return Err(DecodeFailed);
    }
    var registerInfo := a.descriptor.value;
    var halt := RegisterOpcodes(manage, registerInfo, a.symbols);
    if halt.Some? {
      return Err(halt.value);
    }
    return Ok(true);
  }

  /**
   * The loop `for opcode, sendfunc := range register_map`: a fresh monitor
   * per entry, its handler symbol resolved and type-checked, then
   * RegisterOpcode. A bad handler ends the loop with the earlier entries bound.
   */
  method RegisterOpcodes(manage: PluginManages, registerInfo: RegisterInfo, symbols: map<string, SymbolKind>)
    returns (halt: Option<HaltReason>)
    modifies manage
    ensures var spec := RegisterEntries(registerInfo.pluginName, symbols, registerInfo.opCode, 0);
      && manage.registrations == old(manage.registrations) + spec.calls
      && manage.registered == old(manage.registered) + Opcodes(spec.calls)
      && halt == spec.halt
  {
    var registerMap := registerInfo.opCode;
    ghost var name := registerInfo.pluginName;
    ghost var spec := RegisterEntries(name, symbols, registerMap, 0);
    ghost var rest := spec;
    ghost var done: seq<Registration> := [];
    var i := 0;
    while i < |registerMap|
      invariant 0 <= i <= |registerMap|
      invariant manage.registrations == old(manage.registrations) + done
      invariant manage.registered == old(manage.registered) + Opcodes(done)
      invariant rest == RegisterEntries(name, symbols, registerMap, i)
      invariant spec == LoadResult(done + rest.calls, rest.halt)
    {
      var (opcode, sendfunc) := registerMap[i];
      var monitor := Monitor("", "", "", "", "");
      monitor := monitor.(pluginName := registerInfo.pluginName);
      monitor := monitor.(logger := registerInfo.pluginName);
      if sendfunc !in symbols {
        return Some(SendFuncMissing(sendfunc));
      }
      if symbols[sendfunc] != SendFunc {
        return Some(SendFuncWrongType(sendfunc));
      }
      monitor := monitor.(sendFunc := sendfunc);
      monitor := monitor.(opcode := opcode);
      monitor := monitor.(ialOption := opcode);
      assert Registration(opcode, monitor) == EntryCall(name, registerMap[i]);
      Absorb(old(manage.registrations), old(manage.registered), done, [Registration(opcode, monitor)]);
      manage.RegisterOpcode(opcode, monitor);
      rest := RegisterEntries(name, symbols, registerMap, i + 1);
      Prepend(done, [Registration(opcode, monitor)], rest.calls);
      done := done + [Registration(opcode, monitor)];
      i := i + 1;
    }
    return None;
  }

  /** What RegisterPlugin does with the file at `path`. */
  function LoadOf(fs: FileSystem, path: string): LoadResult
  {
    RegisterPluginSpec(ArtifactAt(fs, path))
  }

  /** What RegisterPlugin does with each discovered file, in discovery order. */
  function Loads(files: seq<string>, fs: FileSystem): seq<LoadResult>
  {
    seq(|files|, i requires 0 <= i < |files| => LoadOf(fs, files[i]))
  }

  /** `loads` are the loads of `files`, one per file. */
  predicate LoadsAgree(files: seq<string>, fs: FileSystem, loads: seq<LoadResult>)
  {
    |loads| == |files| && forall j {:trigger LoadOf(fs, files[j])} :: 0 <= j < |files| ==> loads[j] == LoadOf(fs, files[j])
  }

  /**
   * The loop of `SetUpPlugin` over the loads from position `i`: each file's
   * calls in turn, ending at the first load that halts the process, whose
   * index is recorded.
   */
  function SetUpOver(loads: seq<LoadResult>, i: nat): SetUpResult
    requires i <= |loads|
    decreases |loads| - i
  {
    if i == |loads| then SetUpResult([], None)
    else
      match loads[i].halt
      case Some(e) => SetUpResult(loads[i].calls, Some((i, e)))
      case None =>
        var rest := SetUpOver(loads, i + 1);
        SetUpResult(loads[i].calls + rest.calls, rest.halted)
  }

  /** `SetUpPlugin`: one RegisterPlugin per discovered file. */
  function SetUpSpec(files: seq<string>, fs: FileSystem): SetUpResult
  {
    SetUpOver(Loads(files, fs), 0)
  }

  /** The concatenated calls of the loads at positions `i` up to `j`. */
  function AllCalls(loads: seq<LoadResult>, i: nat, j: nat): seq<Registration>
    requires i <= j <= |loads|
    decreases j - i
  {
    if i == j then [] else loads[i].calls + AllCalls(loads, i + 1, j)
  }

  /**
   * The loop stops at the first load that halts: every earlier load returned
   * true, and with no halt every load did. The calls are those of every load
   * before the halting one, in order, then the halting load's partial calls.
   */
  lemma {:induction false} SetUpOverStopsAtFirstHalt(loads: seq<LoadResult>, i: nat)
    requires i <= |loads|
    ensures var r := SetUpOver(loads, i);
      r.halted.None? ==>
        && (forall j :: i <= j < |loads| ==> loads[j].halt.None?)
        && r.calls == AllCalls(loads, i, |loads|)
    ensures var r := SetUpOver(loads, i);
      r.halted.Some? ==>
        var (k, e) := r.halted.value;
        && i <= k < |loads|
        && loads[k].halt == Some(e)
        && (forall j :: i <= j < k ==> loads[j].halt.None?)
        && r.calls == AllCalls(loads, i, k) + loads[k].calls
    decreases |loads| - i
  {
    if i < |loads| && loads[i].halt.None? {
      SetUpOverStopsAtFirstHalt(loads, i + 1);
      var rest := SetUpOver(loads, i + 1);
      if rest.halted.Some? {
        Prepend(loads[i].calls, AllCalls(loads, i + 1, rest.halted.value.0), loads[rest.halted.value.0].calls);
      }
    }
  }

  /**
   * `SetUpPlugin` loads the discovered files in discovery order and stops at
   * the first one that halts; the registrations are those of the files loaded.
   */
  lemma SetUpStopsAtFirstHalt(files: seq<string>, fs: FileSystem)
    ensures var r := SetUpSpec(files, fs);
      r.halted.None? ==>
        && (forall j :: 0 <= j < |files| ==> RegisterPluginSpec(ArtifactAt(fs, files[j])).halt.None?)
        && r.calls == AllCalls(Loads(files, fs), 0, |files|)
    ensures var r := SetUpSpec(files, fs);
      r.halted.Some? ==>
        var (k, e) := r.halted.value;
        && k < |files|
        && RegisterPluginSpec(ArtifactAt(fs, files[k])).halt == Some(e)
        && (forall j :: 0 <= j < k ==> RegisterPluginSpec(ArtifactAt(fs, files[j])).halt.None?)
        && r.calls == AllCalls(Loads(files, fs), 0, k) + RegisterPluginSpec(ArtifactAt(fs, files[k])).calls
  {
    var loads := Loads(files, fs);
    assert forall j :: 0 <= j < |files| ==> loads[j] == RegisterPluginSpec(ArtifactAt(fs, files[j]));
    SetUpOverStopsAtFirstHalt(loads, 0);
  }

  /** One iteration of `SetUpPlugin`: RegisterPlugin on the i-th discovered file. */
  method LoadFile(manage: PluginManages, files: seq<string>, fs: FileSystem, i: nat, ghost loads: seq<LoadResult>)
    returns (r: Result<bool, HaltReason>)
    requires i < |files| && LoadsAgree(files, fs, loads)
    modifies manage
    ensures manage.registrations == old(manage.registrations) + loads[i].calls
    ensures manage.registered == old(manage.registered) + Opcodes(loads[i].calls)
    ensures r.Err? <==> loads[i].halt.Some?
    ensures r.Err? ==> loads[i].halt == Some(r.error)
  {
    r := RegisterPlugin(manage, ArtifactAt(fs, files[i]));
    assert loads[i] == LoadOf(fs, files[i]);
  }

  /** Go's `SetUpPlugin(manage)` over the globbed file list; `fs` gives the artifact at each path. */
  method SetUpPlugin(manage: PluginManages, files: seq<string>, fs: FileSystem) returns (halted: Option<(nat, HaltReason)>)
    modifies manage
    ensures manage.registrations == old(manage.registrations) + SetUpSpec(files, fs).calls
    ensures manage.registered == old(manage.registered) + Opcodes(SetUpSpec(files, fs).calls)
    ensures halted == SetUpSpec(files, fs).halted
  {
    ghost var loads := Loads(files, fs);
    assert LoadsAgree(files, fs, loads);
    halted := LoadAll(manage, files, fs, loads);
  }

  /** The loop of `SetUpPlugin`: one RegisterPlugin per file, stopping at the first that halts. */
  method LoadAll(manage: PluginManages, files: seq<string>, fs: FileSystem, ghost loads: seq<LoadResult>)
    returns (halted: Option<(nat, HaltReason)>)
    requires LoadsAgree(files, fs, loads)
    modifies manage
    ensures manage.registrations == old(manage.registrations) + SetUpOver(loads, 0).calls
    ensures manage.registered == old(manage.registered) + Opcodes(SetUpOver(loads, 0).calls)
    ensures halted == SetUpOver(loads, 0).halted
  {
    ghost var spec := SetUpOver(loads, 0);
    ghost var rest := spec;
    ghost var done: seq<Registration> := [];
    var i := 0;
    while i < |files|
      invariant 0 <= i <= |files|
      invariant manage.registrations == old(manage.registrations) + done
      invariant manage.registered == old(manage.registered) + Opcodes(done)
      invariant rest == SetUpOver(loads, i)
      invariant spec == SetUpResult(done + rest.calls, rest.halted)
    {
      Absorb(old(manage.registrations), old(manage.registered), done, loads[i].calls);
      var r := LoadFile(manage, files, fs, i, loads);
      if r.Err? {
        done := done + loads[i].calls;
        return Some((i, r.error));
      }
      rest := SetUpOver(loads, i + 1);
      Prepend(done, loads[i].calls, rest.calls);
      done := done + loads[i].calls;
      i := i + 1;
    }
    return None;
  }
}
