/** `low_level_embedding`: load a module by name, fetch a callable from it, pack the
    remaining command-line arguments into a tuple, call it, and finalize the interpreter.

    Every foreign call is answered by an `Oracle`, so the procedure is deterministic. The
    ledger and the handle operations of `PythonObject` carry all reference-count traffic;
    the `trace` records the foreign calls and the diagnostics in the order they are made.
    Handles live in automatic storage: each block pushes its handles and pops them, innermost
    first, when it is left, whether by falling through or by a `throw` unwinding through it.
    A `throw` does not finalize the interpreter.

    `PyTuple_SetItem` steals the reference it is given, but the source passes the pointer
    still held by `pValue`, whose next assignment releases that same share again. The
    procedure is written once with a `fix` switch: `fix == false` is the code as written,
    `fix == true` adds the `Py_INCREF(*pValue)` before the insertion, so that the handle
    keeps its own share. */
module Embedding {
  import opened Ledger
  import opened PythonObject
  import opened Outcome

  datatype Run = Run(exit: Exit, state: State, trace: seq<Event>)

  datatype Ctx = Ctx(state: State, trace: seq<Event>)

  /** A stage either falls through to what follows it or unwinds with a failure. */
  datatype Step = Continue(ctx: Ctx) | Abort(failure: Failure, ctx: Ctx)

  // ---------------------------------------------------------------------------
  // How the ledger moves across a stage

  /** Nothing was handed to the runtime: the runtime and loose shares are as they were, and
      a balanced (sound) ledger stays balanced (sound). */
  ghost predicate Untouched(c: State, r: State)
  {
    && (Balanced(c) ==> Balanced(r))
    && (Sound(c) ==> Sound(r))
    && r.runtime == c.runtime
    && (forall x: ObjId :: Loose(r, x) == Loose(c, x))
  }

  /** The ledger moved from `c` to `r` exactly as the insertions recorded in between say:
      each insertion gives the runtime one share; as written it also costs the host one
      loose share, while with the fix the `Py_INCREF` paid for it, and then a sound ledger
      stays sound. */
  ghost predicate Accounts(c: Ctx, r: Ctx, fix: bool)
  {
    && (Balanced(c.state) ==> Balanced(r.state))
    && (fix && Sound(c.state) ==> Sound(r.state))
    && (forall x: ObjId :: Runtime(r.state, x) - Runtime(c.state, x) == Inserted(r.trace, x) - Inserted(c.trace, x))
    && (forall x: ObjId ::
          Loose(r.state, x) - Loose(c.state, x) == if fix then 0 else Inserted(c.trace, x) - Inserted(r.trace, x))
  }

  /** A stage that touched no runtime or loose share and recorded no insertion accounts
      for itself. */
  lemma QuietStage(c: Ctx, r: Ctx, u: seq<Event>, fix: bool)
    requires Untouched(c.state, r.state) && Quiet(u) && r.trace == c.trace + u
    ensures Accounts(c, r, fix)
  {
    forall x: ObjId ensures Inserted(r.trace, x) == Inserted(c.trace, x) {
      QuietSuffix(c.trace, u, x);
    }
  }

  /** A quiet stage followed by one that accounts for itself. */
  lemma QuietThen(a: Ctx, b: Ctx, c: Ctx, u: seq<Event>, fix: bool)
    requires Untouched(a.state, b.state) && Quiet(u) && b.trace == a.trace + u
    requires Accounts(b, c, fix)
    ensures Accounts(a, c, fix)
  {
    QuietStage(a, b, u, fix);
  }

  lemma AccountsChain(a: Ctx, b: Ctx, c: Ctx, fix: bool)
    requires Accounts(a, b, fix) && Accounts(b, c, fix)
    ensures Accounts(a, c, fix)
  {
  }

  // ---------------------------------------------------------------------------
  // Handle idioms of the source

  /** `Object(Foreign())`: a handle adopts the new reference a foreign call returns. The
      new reference and the adoption cancel out, so only the count of `p` moves. */
  method AdoptNew(st: State, p: Option<ObjId>) returns (m: Made)
    ensures m.slot == |st.slots| && m.state.slots == st.slots + [Live(Handle(p, ""))]
    ensures Untouched(st, m.state)
    ensures forall x: ObjId :: Count(m.state, x) == Count(st, x) + Hit(p, x)
  {
    var issued := NewReference(st, p);
    NewReferenceAccounts(st, p);
    m := Adopt(issued, p, "");
    AdoptShares(issued, p, "");
    AdoptKeepsBalance(issued, p, "");
  }

  /** `x.set_name(name)`: only the diagnostic name changes. */
  method Rename(st: State, s: SlotId, name: string) returns (r: State)
    requires IsLive(st, s)
    ensures r.slots == st.slots[s := Live(Handle(Ptr(st, s), name))]
    ensures Untouched(st, r) && r.count == st.count
  {
    r := SetName(st, s, name);
    SetNameKeepsBalance(st, s, name);
  }

  /** `python::Object x = Foreign(); x.set_name(name);` (guaranteed copy elision: the
      handle itself adopts the new reference). */
  method Declare(st: State, p: Option<ObjId>, name: string) returns (m: Made)
    ensures m.slot == |st.slots| && m.state.slots == st.slots + [Live(Handle(p, name))]
    ensures Untouched(st, m.state)
    ensures forall x: ObjId :: Count(m.state, x) == Count(st, x) + Hit(p, x)
  {
    var made := AdoptNew(st, p);
    var named := Rename(made.state, made.slot, name);
    m := Made(named, made.slot);
  }

  /** `python::Object x; x.set_name(name);`: a null handle, no count moves. */
  method DeclareEmpty(st: State, name: string) returns (m: Made)
    ensures m.slot == |st.slots| && m.state.slots == st.slots + [Live(Handle(None, name))]
    ensures Untouched(st, m.state) && m.state.count == st.count
  {
    var made := DefaultConstruct(st);
    DefaultConstructKeepsBalance(st);
    var named := Rename(made.state, made.slot, name);
    m := Made(named, made.slot);
  }

  /** `python::Object y = x;`: a copy that shares `x`'s object and takes one more share. */
  method DeclareCopy(st: State, src: SlotId) returns (m: Made)
    requires IsLive(st, src)
    ensures m.slot == |st.slots| && m.state.slots == st.slots + [st.slots[src]]
    ensures Untouched(st, m.state)
    ensures forall x: ObjId :: Count(m.state, x) == Count(st, x) + Hit(Ptr(st, src), x)
  {
    m := CopyConstruct(st, src);
    CopyConstructCounts(st, src);
    CopyConstructKeepsBalance(st, src);
  }

  /** `x = Foreign(); x.set_name(name);`: the new reference is adopted by a temporary,
      move-assigned into `x` (releasing what `x` held), and the emptied temporary is
      destroyed at the end of the full expression. */
  method Reassign(st: State, dst: SlotId, p: Option<ObjId>, name: string) returns (r: State)
    requires IsLive(st, dst)
    ensures r.slots == st.slots[dst := Live(Handle(p, name))]
    ensures Untouched(st, r)
    ensures forall x: ObjId :: Count(r, x) == Count(st, x) + Hit(p, x) - Hit(Ptr(st, dst), x)
  {
    var temp := AdoptNew(st, p);
    var moved := MoveAssign(temp.state, dst, temp.slot);
    MoveAssignCounts(temp.state, dst, temp.slot);
    MoveAssignKeepsBalance(temp.state, dst, temp.slot);
    var popped := Close(moved);
    r := Rename(popped, dst, name);
  }

  /** The closing brace of the innermost scope: its last handle is destroyed, releasing
      exactly the share it held, and its storage is popped. */
  method Close(st: State) returns (r: State)
    requires |st.slots| > 0 && IsLive(st, |st.slots| - 1)
    ensures r.slots == st.slots[..|st.slots| - 1]
    ensures Untouched(st, r)
    ensures forall x: ObjId :: Count(r, x) == Count(st, x) - Hit(Ptr(st, |st.slots| - 1), x)
  {
    var freed := Destroy(st, |st.slots| - 1);
    DestroyCounts(st, |st.slots| - 1);
    DestroyKeepsBalance(st, |st.slots| - 1);
    r := Pop(freed);
    PopKeepsBalance(freed);
  }

  /** Leaving the innermost scope on either path: fall-through continues, a throw keeps
      unwinding. */
  method Unwind(s: Step) returns (q: Step)
    requires |s.ctx.state.slots| > 0 && IsLive(s.ctx.state, |s.ctx.state.slots| - 1)
    ensures q.Continue? == s.Continue? && (q.Abort? ==> q.failure == s.failure)
    ensures q.ctx.trace == s.ctx.trace
    ensures q.ctx.state.slots == s.ctx.state.slots[..|s.ctx.state.slots| - 1]
    ensures Untouched(s.ctx.state, q.ctx.state)
  {
    var st := Close(s.ctx.state);
    q := s.(ctx := s.ctx.(state := st));
  }

  /** `Unwind` at the end of a stage that accounts for insertions. */
  method Leave(s: Step, fix: bool) returns (q: Step)
    requires |s.ctx.state.slots| > 0 && IsLive(s.ctx.state, |s.ctx.state.slots| - 1)
    ensures q.Continue? == s.Continue? && (q.Abort? ==> q.failure == s.failure)
    ensures q.ctx.trace == s.ctx.trace
    ensures q.ctx.state.slots == s.ctx.state.slots[..|s.ctx.state.slots| - 1]
    ensures Accounts(s.ctx, q.ctx, fix)
  {
    q := Unwind(s);
    assert q.ctx.trace == s.ctx.trace + [];
    QuietStage(s.ctx, q.ctx, [], fix);
  }

  // ---------------------------------------------------------------------------
  // The stages of low_level_embedding

  /** The inner block: decode `argv[1]` into `name`, throw if that failed, import the module
      into `module`, and release `name` at the closing brace. */
  method OpenModule(c: Ctx, arg: string, o: Oracle, modSlot: SlotId) returns (r: Step)
    requires IsLive(c.state, modSlot)
    ensures r.Abort? <==> o.decoded.None?
    ensures r.Abort? ==> r.failure == DecodeFailed && r.ctx.state.slots == c.state.slots
    ensures r.Abort? ==> r.ctx.trace == c.trace + [Decoded(arg)]
    ensures r.Continue? ==> r.ctx.trace == c.trace + [Decoded(arg), Imported(o.decoded.value)]
    ensures r.Continue? ==> r.ctx.state.slots == c.state.slots[modSlot := Live(Handle(o.imported, "module"))]
    ensures Untouched(c.state, r.ctx.state)
  {
    var name := Declare(c.state, o.decoded, "pName");
    if IsNull(name.state, name.slot) {
      var st := Close(name.state);
      r := Abort(DecodeFailed, Ctx(st, c.trace + [Decoded(arg)]));
    } else {
      var loaded := Reassign(name.state, modSlot, o.imported, "module");
      var st := Close(loaded);
      r := Continue(Ctx(st, c.trace + [Decoded(arg), Imported(Get(name.state, name.slot).value)]));
    }
  }

  /** `std::to_string` of a loop index. */
  function Decimal(n: nat): string
  {
    if n < 10 then ["0123456789"[n]] else Decimal(n / 10) + ["0123456789"[n % 10]]
  }

  /** One iteration of the argument loop: convert `argv[i + 3]` into `pValue`, throw if
      that failed, and hand `*pValue` to the tuple at index `i`. */
  method InsertArgument(c: Ctx, argv: seq<string>, o: Oracle, argsSlot: SlotId, valueSlot: SlotId, i: nat, fix: bool)
    returns (r: Step)
    requires 3 <= |argv| && i < Arity(argv)
    requires IsLive(c.state, argsSlot) && Get(c.state, argsSlot) == Some(o.tuple) && IsLive(c.state, valueSlot)
    ensures r.Abort? <==> Conv(o, i).None?
    ensures r.Abort? ==> r.failure == ConversionFailed && r.ctx.trace == c.trace + [Converted(argv[i + 3])]
    ensures r.Continue? ==> r.ctx.trace == c.trace + [Converted(argv[i + 3]), ItemSet(o.tuple, i, Conv(o, i).value)]
    ensures r.ctx.state.slots == c.state.slots[valueSlot := Live(Handle(Conv(o, i), "pValue " + Decimal(i)))]
    ensures Accounts(c, r.ctx, fix)
  {
    var st := Reassign(c.state, valueSlot, Conv(o, i), "pValue " + Decimal(i));
    if IsNull(st, valueSlot) {
      r := Abort(ConversionFailed, Ctx(st, c.trace + [Converted(argv[i + 3])]));
      QuietStage(c, r.ctx, [Converted(argv[i + 3])], fix);
    } else {
      var item := Get(st, valueSlot).value;
      var kept := if fix then NewReference(st, Some(item)) else st;
      NewReferenceAccounts(st, Some(item));
      var stolen := Steal(kept, item);
      StealAccounts(kept, item);
      r := Continue(Ctx(stolen, c.trace + [Converted(argv[i + 3]), ItemSet(Get(c.state, argsSlot).value, i, item)]));
      InsertedAfterIteration(c.trace, argv[i + 3], o.tuple, i, item);
    }
  }

  /** The argument loop `for (i = 0; i < argc - 3; ++i)`, left by the first failed
      conversion's throw. */
  method FillArgs(c: Ctx, argv: seq<string>, o: Oracle, argsSlot: SlotId, valueSlot: SlotId, fix: bool)
    returns (r: Step)
    requires 3 <= |argv| && argsSlot != valueSlot
    requires IsLive(c.state, argsSlot) && Get(c.state, argsSlot) == Some(o.tuple) && IsLive(c.state, valueSlot)
    ensures r.Abort? <==> ArgFails(argv, o)
    ensures r.Abort? ==> r.failure == ConversionFailed
    ensures r.ctx.trace == c.trace + ArgEvents(argv, o, 0)
    ensures IsLive(r.ctx.state, valueSlot)
    ensures r.ctx.state.slots == c.state.slots[valueSlot := r.ctx.state.slots[valueSlot]]
    ensures Accounts(c, r.ctx, fix)
  {
    var n := Arity(argv);
    var cur := c;
    var i := 0;
    while i < n
      invariant 0 <= i <= n
      invariant IsLive(cur.state, valueSlot)
      invariant cur.state.slots == c.state.slots[valueSlot := cur.state.slots[valueSlot]]
      invariant FirstFailure(o, 0, n) == FirstFailure(o, i, n)
      invariant cur.trace + ArgEvents(argv, o, i) == c.trace + ArgEvents(argv, o, 0)
      invariant Accounts(c, cur, fix)
    {
      var step := InsertArgument(cur, argv, o, argsSlot, valueSlot, i, fix);
      AccountsChain(c, cur, step.ctx, fix);
      if step.Abort? {
        ArgEventsAfterIteration(argv, o, i, cur.trace, step.ctx.trace);
        return step;
      }
      ArgEventsAfterIteration(argv, o, i, cur.trace, step.ctx.trace);
      cur := step.ctx;
      i := i + 1;
    }
    r := Continue(cur);
  }

  /** `pValue = PyObject_CallObject(*pFunc, args.get())`, then `python::Object res = pValue`:
      print the result, or print the error and throw. `res` is released either way. */
  method CallFunction(c: Ctx, o: Oracle, funcSlot: SlotId, argsSlot: SlotId, valueSlot: SlotId) returns (r: Step)
    requires IsLive(c.state, funcSlot) && Get(c.state, funcSlot).Some?
    requires IsLive(c.state, argsSlot) && Get(c.state, argsSlot) == Some(o.tuple)
    requires IsLive(c.state, valueSlot)
    ensures r.Abort? <==> o.called.None?
    ensures r.Abort? ==> r.failure == CallFailed
    ensures r.ctx.trace == c.trace + CallEvents(o, Get(c.state, funcSlot).value)
    ensures r.ctx.state.slots == c.state.slots[valueSlot := Live(Handle(o.called, "pValue result"))]
    ensures Untouched(c.state, r.ctx.state)
  {
    var t := c.trace + [Called(Get(c.state, funcSlot).value, Get(c.state, argsSlot).value)];
    var st := Reassign(c.state, valueSlot, o.called, "pValue result");
    var res := DeclareCopy(st, valueSlot);
    var step: Step;
    if IsValid(res.state, res.slot) {
      step := Continue(Ctx(res.state, t + [ResultPrinted(Get(res.state, res.slot).value)]));
    } else {
      step := Abort(CallFailed, Ctx(res.state, t + [ErrorPrinted]));
    }
    r := Unwind(step);
  }

  /** The loop, then the call when every argument converted. */
  method FillAndCall(c: Ctx, argv: seq<string>, o: Oracle, funcSlot: SlotId, callee: ObjId, argsSlot: SlotId, valueSlot: SlotId, fix: bool)
    returns (r: Step)
    requires 3 <= |argv| && argsSlot != valueSlot && funcSlot != valueSlot
    requires IsLive(c.state, funcSlot) && Get(c.state, funcSlot) == Some(callee)
    requires IsLive(c.state, argsSlot) && Get(c.state, argsSlot) == Some(o.tuple) && IsLive(c.state, valueSlot)
    ensures r.Abort? <==> ArgFails(argv, o) || o.called.None?
    ensures r.Abort? ==> r.failure == if ArgFails(argv, o) then ConversionFailed else CallFailed
    ensures r.ctx.trace == c.trace + ArgEvents(argv, o, 0)
      + (if ArgFails(argv, o) then [] else CallEvents(o, callee))
    ensures IsLive(r.ctx.state, valueSlot)
    ensures r.ctx.state.slots == c.state.slots[valueSlot := r.ctx.state.slots[valueSlot]]
    ensures Accounts(c, r.ctx, fix)
  {
    r := FillArgs(c, argv, o, argsSlot, valueSlot, fix);
    if r.Continue? {
      var filled := r.ctx;
      r := CallFunction(filled, o, funcSlot, argsSlot, valueSlot);
      QuietStage(filled, r.ctx, CallEvents(o, callee), fix);
      AccountsChain(c, filled, r.ctx, fix);
    } else {
      assert r.ctx.trace == c.trace + ArgEvents(argv, o, 0) + [];
    }
  }

  /** The callable branch: build the argument tuple `args` and the empty `pValue`, run the
      loop and the call, and release `pValue` and `args` at the closing brace. */
  method Invoke(c: Ctx, argv: seq<string>, o: Oracle, funcSlot: SlotId, fix: bool) returns (r: Step)
    requires 3 <= |argv| && IsLive(c.state, funcSlot) && Get(c.state, funcSlot).Some?
    ensures r.Abort? <==> ArgFails(argv, o) || o.called.None?
    ensures r.Abort? ==> r.failure == if ArgFails(argv, o) then ConversionFailed else CallFailed
    ensures r.ctx.trace == c.trace + InvokeEvents(argv, o, Get(c.state, funcSlot).value)
    ensures r.ctx.state.slots == c.state.slots
    ensures Accounts(c, r.ctx, fix)
  {
    var args := Declare(c.state, Some(o.tuple), "args");
    var value := DeclareEmpty(args.state, "pValue empty");
    var start := Ctx(value.state, c.trace + [TupleCreated(Arity(argv))]);
    var callee := Get(c.state, funcSlot).value;
    var called := FillAndCall(start, argv, o, funcSlot, callee, args.slot, value.slot, fix);
    InvokeEventsInOrder(argv, o, callee, c.trace);
    QuietThen(c, start, called.ctx, [TupleCreated(Arity(argv))], fix);
    var inner := Leave(called, fix);
    r := Leave(inner, fix);
    AccountsChain(c, called.ctx, inner.ctx, fix);
    AccountsChain(c, inner.ctx, r.ctx, fix);
  }

  /** The branch where the callable is missing: print the pending error, if any, and the
      complaint, and fall through. */
  method ReportMissing(c: Ctx, argv: seq<string>, o: Oracle, fix: bool) returns (r: Step)
    requires 3 <= |argv|
    ensures r == Continue(Ctx(c.state, c.trace + NotFoundEvents(argv, o)))
    ensures Accounts(c, r.ctx, fix)
  {
    var u := NotFoundEvents(argv, o);
    r := Continue(Ctx(c.state, c.trace + u));
    QuietStage(c, r.ctx, u, fix);
  }

  /** `if (pFunc && PyCallable_Check(pFunc.get()))`: invoke the function, or report it
      missing. */
  method Dispatch(c: Ctx, argv: seq<string>, o: Oracle, funcSlot: SlotId, fix: bool) returns (r: Step)
    requires 3 <= |argv| && IsLive(c.state, funcSlot) && Get(c.state, funcSlot) == o.attribute
    ensures r.Abort? <==> o.attribute.Some? && o.callable && (ArgFails(argv, o) || o.called.None?)
    ensures r.Abort? ==> r.failure == if ArgFails(argv, o) then ConversionFailed else CallFailed
    ensures r.ctx.trace == c.trace + LookupEvents(argv, o)
    ensures r.ctx.state.slots == c.state.slots
    ensures Accounts(c, r.ctx, fix)
  {
    LookupEventsInOrder(argv, o, c.trace);
    if IsNull(c.state, funcSlot) {
      r := ReportMissing(c, argv, o, fix);
    } else {
      var checked := Ctx(c.state, c.trace + [CallableChecked(o.attribute.value)]);
      if o.callable {
        r := Invoke(checked, argv, o, funcSlot, fix);
      } else {
        r := ReportMissing(checked, argv, o, fix);
      }
      QuietThen(c, checked, r.ctx, [CallableChecked(o.attribute.value)], fix);
    }
  }

  /** `if (module)` taken: fetch `pFunc` from the module, dispatch on it, and release it at
      the closing brace. */
  method CallAttribute(c: Ctx, argv: seq<string>, o: Oracle, owner: ObjId, fix: bool) returns (r: Step)
    requires 3 <= |argv|
    ensures r.Abort? <==> o.attribute.Some? && o.callable && (ArgFails(argv, o) || o.called.None?)
    ensures r.Abort? ==> r.failure == if ArgFails(argv, o) then ConversionFailed else CallFailed
    ensures r.ctx.trace == c.trace + FetchEvents(argv, o, owner)
    ensures r.ctx.state.slots == c.state.slots
    ensures Accounts(c, r.ctx, fix)
  {
    var func := Declare(c.state, o.attribute, "pFunc");
    var fetched := Ctx(func.state, c.trace + [AttributeFetched(owner, argv[2])]);
    var step := Dispatch(fetched, argv, o, func.slot, fix);
    FetchEventsInOrder(argv, o, owner, c.trace);
    QuietThen(c, fetched, step.ctx, [AttributeFetched(owner, argv[2])], fix);
    r := Leave(step, fix);
    AccountsChain(c, step.ctx, r.ctx, fix);
  }

  /** `if (module)`: fetch and call the function, or print the error and throw. */
  method LoadAndCall(c: Ctx, argv: seq<string>, o: Oracle, modSlot: SlotId, fix: bool) returns (r: Step)
    requires 3 <= |argv| && IsLive(c.state, modSlot) && Get(c.state, modSlot) == o.imported
    ensures r.Abort? <==> o.imported.None? || (o.attribute.Some? && o.callable && (ArgFails(argv, o) || o.called.None?))
    ensures r.Abort? ==>
              r.failure == if o.imported.None? then LoadFailed(argv[1]) else if ArgFails(argv, o) then ConversionFailed else CallFailed
    ensures r.ctx.trace == c.trace + LoadEvents(argv, o)
    ensures r.ctx.state.slots == c.state.slots
    ensures Accounts(c, r.ctx, fix)
  {
    if IsValid(c.state, modSlot) {
      r := CallAttribute(c, argv, o, Get(c.state, modSlot).value, fix);
    } else {
      r := Abort(LoadFailed(argv[1]), Ctx(c.state, c.trace + [ErrorPrinted]));
      QuietStage(c, r.ctx, [ErrorPrinted], fix);
    }
  }

  /** The statements of the block holding `module`, up to its closing brace. */
  method ModuleScope(c: Ctx, argv: seq<string>, o: Oracle, modSlot: SlotId, fix: bool) returns (r: Step)
    requires 3 <= |argv| && IsLive(c.state, modSlot)
    ensures r.Abort? <==> ExpectedExit(argv, o).Threw?
    ensures r.Abort? ==> ExpectedExit(argv, o) == Threw(r.failure)
    ensures r.ctx.trace == c.trace + ScopeEvents(argv, o)
    ensures IsLive(r.ctx.state, modSlot) && r.ctx.state.slots == c.state.slots[modSlot := r.ctx.state.slots[modSlot]]
    ensures Accounts(c, r.ctx, fix)
  {
    r := OpenModule(c, argv[1], o, modSlot);
    ScopeEventsInOrder(argv, o, c.trace);
    if r.Abort? {
      QuietStage(c, r.ctx, [Decoded(argv[1])], fix);
    } else {
      var loaded := r.ctx;
      QuietStage(c, loaded, [Decoded(argv[1]), Imported(o.decoded.value)], fix);
      r := LoadAndCall(loaded, argv, o, modSlot, fix);
      AccountsChain(c, loaded, r.ctx, fix);
    }
  }

  /** `Py_Initialize()` and the block holding `module`, which is released at its closing
      brace whichever way the block is left. */
  method Session(c: Ctx, argv: seq<string>, o: Oracle, fix: bool) returns (r: Step)
    requires 3 <= |argv|
    ensures r.Abort? <==> ExpectedExit(argv, o).Threw?
    ensures r.Abort? ==> ExpectedExit(argv, o) == Threw(r.failure)
    ensures r.ctx.trace == c.trace + SessionEvents(argv, o)
    ensures r.ctx.state.slots == c.state.slots
    ensures Accounts(c, r.ctx, fix)
  {
    var held := DeclareEmpty(c.state, "empty module");
    var begun := Ctx(held.state, c.trace + [Initialized]);
    var step := ModuleScope(begun, argv, o, held.slot, fix);
    SessionEventsInOrder(argv, o, c.trace);
    QuietThen(c, begun, step.ctx, [Initialized], fix);
    r := Leave(step, fix);
    AccountsChain(c, step.ctx, r.ctx, fix);
  }

  /** `low_level_embedding(argc, argv)` with the steal handled as written (`fix == false`)
      or corrected (`fix == true`): the usage check, the session, and `Py_FinalizeEx()` on
      the paths that do not throw. */
  method Embed(argv: seq<string>, o: Oracle, st: State, fix: bool) returns (r: Run)
    ensures r.exit == ExpectedExit(argv, o) && r.trace == ExpectedTrace(argv, o)
    ensures r.state.slots == st.slots
    ensures Accounts(Ctx(st, []), Ctx(r.state, r.trace), fix)
  {
    if |argv| < 3 {
      r := Run(Returned(1), st, [UsagePrinted]);
      QuietStage(Ctx(st, []), Ctx(st, [UsagePrinted]), [UsagePrinted], fix);
      return;
    }
    var s := Session(Ctx(st, []), argv, o, fix);
    AfterUsageCheck(argv, o);
    if s.Abort? {
      r := Run(Threw(s.failure), s.ctx.state, s.ctx.trace);
    } else {
      r := Run(Returned(FinalizeCode(o.finalized)), s.ctx.state, s.ctx.trace + [Finalized]);
      QuietStage(s.ctx, Ctx(r.state, r.trace), [Finalized], fix);
      AccountsChain(Ctx(st, []), s.ctx, Ctx(r.state, r.trace), fix);
    }
  }

  // ---------------------------------------------------------------------------
  // The function as written, and corrected

  /** `low_level_embedding` as written. Every handle is gone at the end and the ledger stays
      balanced, but each tuple insertion moved a share from the host to the runtime that
      the host did not own: the loose shares of every inserted argument fall by the number
      of its insertions, so its count ends where it started although the tuple still
      claims it, and a ledger with no loose share of it to spare is left unsound. */
  method LowLevelEmbedding(argv: seq<string>, o: Oracle, st: State) returns (r: Run)
    ensures r.exit == ExpectedExit(argv, o) && r.trace == ExpectedTrace(argv, o)
    ensures r.state.slots == st.slots
    ensures Balanced(st) ==> Balanced(r.state)
    ensures forall x: ObjId :: Runtime(r.state, x) == Runtime(st, x) + Inserted(r.trace, x)
    ensures forall x: ObjId :: Loose(r.state, x) == Loose(st, x) - Inserted(r.trace, x)
    ensures Balanced(st) ==> forall x: ObjId :: Count(r.state, x) == Count(st, x)
    ensures forall x: ObjId :: Loose(st, x) < Inserted(r.trace, x) ==> !Sound(r.state)
  {
    r := Embed(argv, o, st, false);
    if Balanced(st) {
      forall x: ObjId ensures Count(r.state, x) == Count(st, x) {
        ScopeAccounts(st, r.state, x);
      }
    }
  }

  /** `low_level_embedding` with `Py_INCREF(*pValue)` before each `PyTuple_SetItem`: the
      host's loose shares are untouched, every inserted argument's count rises by exactly
      the tuple's shares of it, and a sound ledger stays sound. */
  method LowLevelEmbeddingFixed(argv: seq<string>, o: Oracle, st: State) returns (r: Run)
    ensures r.exit == ExpectedExit(argv, o) && r.trace == ExpectedTrace(argv, o)
    ensures r.state.slots == st.slots
    ensures Balanced(st) ==> Balanced(r.state)
    ensures Sound(st) ==> Sound(r.state)
    ensures forall x: ObjId :: Runtime(r.state, x) == Runtime(st, x) + Inserted(r.trace, x)
    ensures forall x: ObjId :: Loose(r.state, x) == Loose(st, x)
    ensures Balanced(st) ==> forall x: ObjId :: Count(r.state, x) == Count(st, x) + Inserted(r.trace, x)
  {
    r := Embed(argv, o, st, true);
    if Balanced(st) {
      forall x: ObjId ensures Count(r.state, x) == Count(st, x) + Inserted(r.trace, x) {
        ScopeAccounts(st, r.state, x);
      }
    }
  }

  /** The foreign runtime of the example: everything succeeds; the decoded name is object 0,
      the module object 1, the function object 2, the tuple object 3, the result object 4,
      and `"1000"` converts to object 7, an integer outside the interpreter's cache of small
      values, so no other owner holds a share of it. */
  function ExampleOracle(): Oracle
  {
    Oracle(Some(0), Some(1), Some(2), true, false, 3, (i: nat) => Some(7), Some(4), 0)
  }

  /** A ledger with no objects and no handles. */
  function EmptyLedger(): (st: State)
    ensures Sound(st)
  {
    State([], map[], map[], map[])
  }

  /** `call demo add 1000`. */
  function ExampleArgs(): seq<string>
  {
    ["call", "demo", "add", "1000"]
  }

  /** Run on the example oracle, the function returns 0 after inserting object 7 once. */
  lemma ExampleOutcome()
    ensures ExpectedExit(ExampleArgs(), ExampleOracle()) == Returned(0)
    ensures Inserted(ExpectedTrace(ExampleArgs(), ExampleOracle()), 7) == 1
  {
    var o := ExampleOracle();
    assert Conv(o, 0) == Some(7);
    assert FirstFailure(o, 0, 1) == 1;
    assert Occurrences(o, 7, 0, 1) == 1;
    RunInsertions(ExampleArgs(), o, 7);
  }

  /** `call demo add 1000` on the code as written: it returns 0 and looks clean, but the
      tuple now owns a share of object 7 that nobody gave it. */
  method OverReleaseExample() returns (r: Run)
    ensures r.exit == Returned(0) && r.state.slots == []
    ensures Inserted(r.trace, 7) == 1 && Loose(r.state, 7) == -1 && Runtime(r.state, 7) == 1
    ensures Count(r.state, 7) == 0
    ensures !Sound(r.state)
  {
    r := LowLevelEmbedding(ExampleArgs(), ExampleOracle(), EmptyLedger());
    ExampleOutcome();
  }

  /** The same run on the corrected code stays sound, and object 7 keeps the tuple's share. */
  method FixedExample() returns (r: Run)
    ensures r.exit == Returned(0) && r.state.slots == []
    ensures Inserted(r.trace, 7) == 1 && Loose(r.state, 7) == 0 && Runtime(r.state, 7) == 1
    ensures Count(r.state, 7) == 1
    ensures Sound(r.state)
  {
    r := LowLevelEmbeddingFixed(ExampleArgs(), ExampleOracle(), EmptyLedger());
    ExampleOutcome();
  }
}
