/** What `low_level_embedding` does that can be observed without looking at reference
    counts: the foreign calls and diagnostics it makes, in order, and how it ends.

    The foreign runtime's answers are an `Oracle`. `ExpectedExit` is the function's
    decision table and `ExpectedTrace` the event sequence of every path; both are read off
    the oracle alone, so neither can depend on the reference-count ledger. */
module Outcome {
  import opened Ledger

  /** What the foreign runtime answers at each step. */
  datatype Oracle = Oracle(
    decoded: Option<ObjId>,           // PyUnicode_DecodeFSDefault(argv[1])
    imported: Option<ObjId>,          // PyImport_Import(name)
    attribute: Option<ObjId>,         // PyObject_GetAttrString(module, argv[2])
    callable: bool,                   // PyCallable_Check(pFunc)
    errorPending: bool,               // PyErr_Occurred() when no callable was found
    tuple: ObjId,                     // PyTuple_New(argc - 3)
    converted: nat -> Option<ObjId>,  // PyLong_FromLong(atoi(argv[i + 3])), by index i
    called: Option<ObjId>,            // PyObject_CallObject(pFunc, args)
    finalized: int)                   // Py_FinalizeEx()

  function Conv(o: Oracle, i: nat): Option<ObjId>
  {
    o.converted(i)
  }

  /** The foreign calls and diagnostics of the function. */
  datatype Event =
    | UsagePrinted
    | Initialized
    | Decoded(arg: string)
    | Imported(name: ObjId)
    | AttributeFetched(owner: ObjId, attr: string)
    | CallableChecked(callee: ObjId)
    | ErrorPrinted
    | FunctionNotFound(attr: string)
    | TupleCreated(size: nat)
    | Converted(arg: string)
    | ItemSet(tuple: ObjId, index: nat, item: ObjId)
    | Called(callee: ObjId, args: ObjId)
    | ResultPrinted(result: ObjId)
    | Finalized

  /** The `std::runtime_error`s the function throws. */
  datatype Failure =
    | DecodeFailed                // "PyUnicode_DecodeFSDefault failed"
    | LoadFailed(target: string)  // "Failed to load \"<argv[1]>\""
    | ConversionFailed            // "Cannot convert arguments"
    | CallFailed                  // "Call failed"

  datatype Exit = Returned(code: int) | Threw(failure: Failure)

  /** The process exit code derived from `Py_FinalizeEx()`. */
  function FinalizeCode(finalized: int): (code: int)
    ensures code == 120 <==> finalized < 0
    ensures code == 0 <==> finalized >= 0
  {
    if finalized < 0 then 120 else 0
  }

  /** Number of arguments handed to the callee: `argc - 3`. */
  function Arity(argv: seq<string>): nat
    requires 3 <= |argv|
  {
    |argv| - 3
  }

  // ---------------------------------------------------------------------------
  // The argument loop

  /** Index of the first conversion in `[i, n)` that fails, or `n` when none does. */
  function FirstFailure(o: Oracle, i: nat, n: nat): (k: nat)
    requires i <= n
    ensures i <= k <= n
    ensures forall j :: i <= j < k ==> Conv(o, j).Some?
    ensures k < n ==> Conv(o, k).None?
    decreases n - i
  {
    if i == n || Conv(o, i).None? then i else FirstFailure(o, i + 1, n)
  }

  /** The insertions made for indices `[i, k)`: argument `j` goes to tuple index `j`. */
  function Items(o: Oracle, tuple: ObjId, i: nat, k: nat): seq<Event>
    requires i <= k
    requires forall j :: i <= j < k ==> Conv(o, j).Some?
    decreases k - i
  {
    if i == k then [] else [ItemSet(tuple, i, Conv(o, i).value)] + Items(o, tuple, i + 1, k)
  }

  /** How many of the conversions for indices `[i, k)` produced `x`. */
  function Occurrences(o: Oracle, x: ObjId, i: nat, k: nat): nat
    requires i <= k
    decreases k - i
  {
    if i == k then 0 else Hit(Conv(o, i), x) + Occurrences(o, x, i + 1, k)
  }

  /** What the loop reports from index `i` on: each argument's conversion and, when it
      succeeded, its insertion at the same index; the first failed conversion ends it. */
  function ArgEvents(argv: seq<string>, o: Oracle, i: nat): seq<Event>
    requires 3 <= |argv| && i <= Arity(argv)
    decreases Arity(argv) - i
  {
    if i == Arity(argv) then []
    else if Conv(o, i).None? then [Converted(argv[i + 3])]
    else [Converted(argv[i + 3]), ItemSet(o.tuple, i, Conv(o, i).value)] + ArgEvents(argv, o, i + 1)
  }

  // ---------------------------------------------------------------------------
  // The decision table and the event sequence of every path

  /** The callable branch is taken: every step before the argument loop succeeded. */
  predicate CallReached(argv: seq<string>, o: Oracle)
  {
    3 <= |argv| && o.decoded.Some? && o.imported.Some? && o.attribute.Some? && o.callable
  }

  /** Some argument fails to convert. */
  predicate ArgFails(argv: seq<string>, o: Oracle)
    requires 3 <= |argv|
  {
    FirstFailure(o, 0, Arity(argv)) < Arity(argv)
  }

  function ExpectedExit(argv: seq<string>, o: Oracle): Exit
  {
    if |argv| < 3 then Returned(1)
    else if o.decoded.None? then Threw(DecodeFailed)
    else if o.imported.None? then Threw(LoadFailed(argv[1]))
    else if o.attribute.None? || !o.callable then Returned(FinalizeCode(o.finalized))
    else if ArgFails(argv, o) then Threw(ConversionFailed)
    else if o.called.None? then Threw(CallFailed)
    else Returned(FinalizeCode(o.finalized))
  }

  /** The call and the result handling. */
  function CallEvents(o: Oracle, callee: ObjId): seq<Event>
  {
    [Called(callee, o.tuple)] + (if o.called.Some? then [ResultPrinted(o.called.value)] else [ErrorPrinted])
  }

  /** The callable branch: tuple, argument loop and, when every argument converted, the call. */
  function InvokeEvents(argv: seq<string>, o: Oracle, callee: ObjId): seq<Event>
    requires 3 <= |argv|
  {
    [TupleCreated(Arity(argv))] + ArgEvents(argv, o, 0)
    + (if ArgFails(argv, o) then [] else CallEvents(o, callee))
  }

  /** No callable: the pending error, if any, then the complaint. */
  function NotFoundEvents(argv: seq<string>, o: Oracle): seq<Event>
    requires 3 <= |argv|
  {
    (if o.errorPending then [ErrorPrinted] else []) + [FunctionNotFound(argv[2])]
  }

  /** After the attribute lookup: the callable check only when the lookup gave non-null. */
  function LookupEvents(argv: seq<string>, o: Oracle): seq<Event>
    requires 3 <= |argv|
  {
    if o.attribute.None? then NotFoundEvents(argv, o)
    else [CallableChecked(o.attribute.value)]
         + (if o.callable then InvokeEvents(argv, o, o.attribute.value) else NotFoundEvents(argv, o))
  }

  /** From the attribute lookup on. */
  function FetchEvents(argv: seq<string>, o: Oracle, owner: ObjId): seq<Event>
    requires 3 <= |argv|
  {
    [AttributeFetched(owner, argv[2])] + LookupEvents(argv, o)
  }

  /** After the import: the complaint when it gave null, the lookup otherwise. */
  function LoadEvents(argv: seq<string>, o: Oracle): seq<Event>
    requires 3 <= |argv|
  {
    if o.imported.None? then [ErrorPrinted] else FetchEvents(argv, o, o.imported.value)
  }

  /** From `Py_Initialize()` to the closing brace of the block holding `module`. */
  function SessionEvents(argv: seq<string>, o: Oracle): seq<Event>
    requires 3 <= |argv|
  {
    [Initialized] + ScopeEvents(argv, o)
  }

  /** Inside the block holding `module`: decode, import, then the rest. */
  function ScopeEvents(argv: seq<string>, o: Oracle): seq<Event>
    requires 3 <= |argv|
  {
    [Decoded(argv[1])] + (if o.decoded.None? then [] else [Imported(o.decoded.value)] + LoadEvents(argv, o))
  }

  function ExpectedTrace(argv: seq<string>, o: Oracle): seq<Event>
  {
    if |argv| < 3 then [UsagePrinted]
    else SessionEvents(argv, o) + (if ExpectedExit(argv, o).Returned? then [Finalized] else [])
  }

  // ---------------------------------------------------------------------------
  // Reading a trace

  function IsInsertOf(e: Event, x: ObjId): nat
  {
    if e.ItemSet? && e.item == x then 1 else 0
  }

  /** How many tuple insertions of `x` the trace records. */
  function Inserted(t: seq<Event>, x: ObjId): nat
  {
    if |t| == 0 then 0 else Inserted(t[..|t| - 1], x) + IsInsertOf(t[|t| - 1], x)
  }

  /** The tuple insertions of the trace, in order. */
  function Insertions(t: seq<Event>): seq<Event>
  {
    if |t| == 0 then []
    else Insertions(t[..|t| - 1]) + (if t[|t| - 1].ItemSet? then [t[|t| - 1]] else [])
  }

  /** Events other than insertions. */
  predicate Quiet(u: seq<Event>)
  {
    forall k :: 0 <= k < |u| ==> !u[k].ItemSet?
  }

  lemma {:induction false} InsertedConcat(t: seq<Event>, u: seq<Event>, x: ObjId)
    ensures Inserted(t + u, x) == Inserted(t, x) + Inserted(u, x)
    decreases |u|
  {
    if |u| > 0 {
      var w := t + u;
      assert w[..|w| - 1] == t + u[..|u| - 1];
      InsertedConcat(t, u[..|u| - 1], x);
    } else {
      assert t + u == t;
    }
  }

  lemma {:induction false} InsertionsConcat(t: seq<Event>, u: seq<Event>)
    ensures Insertions(t + u) == Insertions(t) + Insertions(u)
    decreases |u|
  {
    if |u| > 0 {
      var w := t + u;
      assert w[..|w| - 1] == t + u[..|u| - 1];
      InsertionsConcat(t, u[..|u| - 1]);
    } else {
      assert t + u == t;
    }
  }

  lemma {:induction false} QuietHasNoInsertions(u: seq<Event>, x: ObjId)
    requires Quiet(u)
    ensures Inserted(u, x) == 0 && Insertions(u) == []
    decreases |u|
  {
    if |u| > 0 {
      QuietHasNoInsertions(u[..|u| - 1], x);
    }
  }

  /** Appending events none of which is an insertion changes neither reading. */
  lemma QuietSuffix(t: seq<Event>, u: seq<Event>, x: ObjId)
    requires Quiet(u)
    ensures Inserted(t + u, x) == Inserted(t, x)
    ensures Insertions(t + u) == Insertions(t)
  {
    InsertedConcat(t, u, x);
    InsertionsConcat(t, u);
    QuietHasNoInsertions(u, x);
  }

  // ---------------------------------------------------------------------------
  // Properties of the reference

  /** The loop hands the tuple argument `j` at index `j`, in increasing order, and stops
      at the first failed conversion. */
  lemma {:induction false} ArgEventsInsertItems(argv: seq<string>, o: Oracle, i: nat)
    requires 3 <= |argv| && i <= Arity(argv)
    ensures Insertions(ArgEvents(argv, o, i)) == Items(o, o.tuple, i, FirstFailure(o, i, Arity(argv)))
    decreases Arity(argv) - i
  {
    var n := Arity(argv);
    if i == n {
    } else if Conv(o, i).None? {
      QuietHasNoInsertions([Converted(argv[i + 3])], 0);
    } else {
      var head := [Converted(argv[i + 3]), ItemSet(o.tuple, i, Conv(o, i).value)];
      ArgEventsInsertItems(argv, o, i + 1);
      InsertionsConcat(head, ArgEvents(argv, o, i + 1));
      assert head[..1] == [Converted(argv[i + 3])];
      QuietHasNoInsertions(head[..1], 0);
    }
  }

  /** Every successfully converted argument is handed to the tuple exactly once. */
  lemma {:induction false} ArgEventsInsertEachOnce(argv: seq<string>, o: Oracle, i: nat, x: ObjId)
    requires 3 <= |argv| && i <= Arity(argv)
    ensures Inserted(ArgEvents(argv, o, i), x) == Occurrences(o, x, i, FirstFailure(o, i, Arity(argv)))
    decreases Arity(argv) - i
  {
    var n := Arity(argv);
    if i == n {
    } else if Conv(o, i).None? {
      QuietHasNoInsertions([Converted(argv[i + 3])], x);
    } else {
      var head := [Converted(argv[i + 3]), ItemSet(o.tuple, i, Conv(o, i).value)];
      ArgEventsInsertEachOnce(argv, o, i + 1, x);
      InsertedConcat(head, ArgEvents(argv, o, i + 1), x);
      assert head[..1] == [Converted(argv[i + 3])];
      QuietHasNoInsertions(head[..1], x);
    }
  }

  /** One successful loop iteration records exactly one insertion, of its own item. */
  lemma InsertedAfterIteration(t: seq<Event>, arg: string, tuple: ObjId, i: nat, item: ObjId)
    ensures forall x: ObjId ::
      Inserted(t + [Converted(arg), ItemSet(tuple, i, item)], x) == Inserted(t, x) + Hit(Some(item), x)
  {
    var w := t + [Converted(arg), ItemSet(tuple, i, item)];
    assert w[..|w| - 1] == t + [Converted(arg)];
    assert (t + [Converted(arg)])[..|t|] == t;
  }

  /** The loop's events from `i` on are this iteration's events followed by the rest. */
  lemma ArgEventsAfterIteration(argv: seq<string>, o: Oracle, i: nat, t: seq<Event>, u: seq<Event>)
    requires 3 <= |argv| && i < Arity(argv)
    requires Conv(o, i).None? ==> u == t + [Converted(argv[i + 3])]
    requires Conv(o, i).Some? ==> u == t + [Converted(argv[i + 3]), ItemSet(o.tuple, i, Conv(o, i).value)]
    ensures Conv(o, i).None? ==> u == t + ArgEvents(argv, o, i)
    ensures Conv(o, i).Some? ==> u + ArgEvents(argv, o, i + 1) == t + ArgEvents(argv, o, i)
  {
  }

  lemma InvokeEventsInOrder(argv: seq<string>, o: Oracle, callee: ObjId, t: seq<Event>)
    requires 3 <= |argv|
    ensures t + InvokeEvents(argv, o, callee)
      == t + [TupleCreated(Arity(argv))] + ArgEvents(argv, o, 0)
         + (if ArgFails(argv, o) then [] else CallEvents(o, callee))
  {
  }

  lemma FetchEventsInOrder(argv: seq<string>, o: Oracle, owner: ObjId, t: seq<Event>)
    requires 3 <= |argv|
    ensures t + FetchEvents(argv, o, owner) == t + [AttributeFetched(owner, argv[2])] + LookupEvents(argv, o)
  {
  }

  lemma ScopeEventsInOrder(argv: seq<string>, o: Oracle, t: seq<Event>)
    requires 3 <= |argv|
    ensures o.decoded.None? ==> t + ScopeEvents(argv, o) == t + [Decoded(argv[1])]
    ensures o.decoded.Some? ==>
      t + ScopeEvents(argv, o) == t + [Decoded(argv[1]), Imported(o.decoded.value)] + LoadEvents(argv, o)
  {
    if o.decoded.Some? {
      var rest := [Imported(o.decoded.value)] + LoadEvents(argv, o);
      assert ScopeEvents(argv, o) == [Decoded(argv[1])] + rest;
      assert [Decoded(argv[1])] + rest == [Decoded(argv[1]), Imported(o.decoded.value)] + LoadEvents(argv, o);
    }
  }

  lemma SessionEventsInOrder(argv: seq<string>, o: Oracle, t: seq<Event>)
    requires 3 <= |argv|
    ensures t + SessionEvents(argv, o) == t + [Initialized] + ScopeEvents(argv, o)
  {
  }

  /** Quiet events around a stretch do not change what the stretch inserts. */
  lemma QuietAround(a: seq<Event>, m: seq<Event>, b: seq<Event>, x: ObjId)
    requires Quiet(a) && Quiet(b)
    ensures Insertions(a + m + b) == Insertions(m)
    ensures Inserted(a + m + b, x) == Inserted(m, x)
  {
    InsertionsConcat(a + m, b);
    InsertionsConcat(a, m);
    InsertedConcat(a + m, b, x);
    InsertedConcat(a, m, x);
    QuietHasNoInsertions(a, x);
    QuietHasNoInsertions(b, x);
  }

  /** The callable branch inserts the converted arguments, in order, up to the first failure. */
  lemma InvokeInsertions(argv: seq<string>, o: Oracle, callee: ObjId, x: ObjId)
    requires 3 <= |argv|
    ensures Insertions(InvokeEvents(argv, o, callee)) == Items(o, o.tuple, 0, FirstFailure(o, 0, Arity(argv)))
    ensures Inserted(InvokeEvents(argv, o, callee), x) == Occurrences(o, x, 0, FirstFailure(o, 0, Arity(argv)))
  {
    var tail := if ArgFails(argv, o) then [] else CallEvents(o, callee);
    QuietAround([TupleCreated(Arity(argv))], ArgEvents(argv, o, 0), tail, x);
    ArgEventsInsertItems(argv, o, 0);
    ArgEventsInsertEachOnce(argv, o, 0, x);
  }

  /** What the run inserts when the branch guarded by `reached` is the callable branch. */
  function ItemsIf(reached: bool, argv: seq<string>, o: Oracle): seq<Event>
    requires 3 <= |argv|
  {
    if reached then Items(o, o.tuple, 0, FirstFailure(o, 0, Arity(argv))) else []
  }

  function OccurrencesIf(reached: bool, argv: seq<string>, o: Oracle, x: ObjId): nat
    requires 3 <= |argv|
  {
    if reached then Occurrences(o, x, 0, FirstFailure(o, 0, Arity(argv))) else 0
  }

  lemma LookupInsertions(argv: seq<string>, o: Oracle, x: ObjId)
    requires 3 <= |argv|
    ensures Insertions(LookupEvents(argv, o)) == ItemsIf(o.attribute.Some? && o.callable, argv, o)
    ensures Inserted(LookupEvents(argv, o), x) == OccurrencesIf(o.attribute.Some? && o.callable, argv, o, x)
  {
    if o.attribute.Some? && o.callable {
      QuietAround([CallableChecked(o.attribute.value)], InvokeEvents(argv, o, o.attribute.value), [], x);
      assert LookupEvents(argv, o) == [CallableChecked(o.attribute.value)] + InvokeEvents(argv, o, o.attribute.value) + [];
      InvokeInsertions(argv, o, o.attribute.value, x);
    } else {
      QuietHasNoInsertions(LookupEvents(argv, o), x);
    }
  }

  lemma LoadInsertions(argv: seq<string>, o: Oracle, x: ObjId)
    requires 3 <= |argv|
    ensures Insertions(LoadEvents(argv, o)) == ItemsIf(o.imported.Some? && o.attribute.Some? && o.callable, argv, o)
    ensures Inserted(LoadEvents(argv, o), x) == OccurrencesIf(o.imported.Some? && o.attribute.Some? && o.callable, argv, o, x)
  {
    if o.imported.Some? {
      var owner := o.imported.value;
      QuietAround([AttributeFetched(owner, argv[2])], LookupEvents(argv, o), [], x);
      assert LoadEvents(argv, o) == [AttributeFetched(owner, argv[2])] + LookupEvents(argv, o) + [];
      LookupInsertions(argv, o, x);
    } else {
      QuietHasNoInsertions(LoadEvents(argv, o), x);
    }
  }

  lemma SessionInsertions(argv: seq<string>, o: Oracle, x: ObjId)
    requires 3 <= |argv|
    ensures Insertions(SessionEvents(argv, o)) == ItemsIf(CallReached(argv, o), argv, o)
    ensures Inserted(SessionEvents(argv, o), x) == OccurrencesIf(CallReached(argv, o), argv, o, x)
  {
    if o.decoded.Some? {
      var head := [Initialized, Decoded(argv[1]), Imported(o.decoded.value)];
      assert SessionEvents(argv, o) == head + LoadEvents(argv, o) + [];
      QuietAround(head, LoadEvents(argv, o), [], x);
      LoadInsertions(argv, o, x);
    } else {
      QuietHasNoInsertions(SessionEvents(argv, o), x);
    }
  }

  /** Over a whole run, the tuple receives exactly the converted arguments up to the first
      failed conversion, each at its own index, and only when the callable branch is
      reached; nothing else is ever handed to the runtime. */
  lemma RunInsertions(argv: seq<string>, o: Oracle, x: ObjId)
    ensures Insertions(ExpectedTrace(argv, o))
         == if CallReached(argv, o) then Items(o, o.tuple, 0, FirstFailure(o, 0, Arity(argv))) else []
    ensures Inserted(ExpectedTrace(argv, o), x)
         == if CallReached(argv, o) then Occurrences(o, x, 0, FirstFailure(o, 0, Arity(argv))) else 0
  {
    if |argv| < 3 {
      QuietHasNoInsertions(ExpectedTrace(argv, o), x);
    } else {
      var fin: seq<Event> := if ExpectedExit(argv, o).Returned? then [Finalized] else [];
      assert ExpectedTrace(argv, o) == [] + SessionEvents(argv, o) + fin;
      QuietAround([], SessionEvents(argv, o), fin, x);
      SessionInsertions(argv, o, x);
    }
  }

  lemma {:induction false} ArgEventsUnfinalized(argv: seq<string>, o: Oracle, i: nat)
    requires 3 <= |argv| && i <= Arity(argv)
    ensures Finalized !in ArgEvents(argv, o, i)
    decreases Arity(argv) - i
  {
    if i < Arity(argv) && Conv(o, i).Some? {
      ArgEventsUnfinalized(argv, o, i + 1);
    }
  }

  lemma SessionUnfinalized(argv: seq<string>, o: Oracle)
    requires 3 <= |argv|
    ensures Finalized !in SessionEvents(argv, o)
  {
    ArgEventsUnfinalized(argv, o, 0);
    if o.attribute.Some? {
      assert Finalized !in InvokeEvents(argv, o, o.attribute.value);
    }
    assert Finalized !in LookupEvents(argv, o);
    if o.imported.Some? {
      assert Finalized !in FetchEvents(argv, o, o.imported.value);
    }
    assert Finalized !in LoadEvents(argv, o);
    assert Finalized !in ScopeEvents(argv, o);
  }

  /** `Py_FinalizeEx()` is called exactly on the paths that return after initializing, and
      it is the last thing the function does. */
  lemma FinalizedIffReturned(argv: seq<string>, o: Oracle)
    ensures Finalized in ExpectedTrace(argv, o) <==> 3 <= |argv| && ExpectedExit(argv, o).Returned?
    ensures Finalized in ExpectedTrace(argv, o) ==> ExpectedTrace(argv, o)[|ExpectedTrace(argv, o)| - 1] == Finalized
  {
    if 3 <= |argv| {
      SessionUnfinalized(argv, o);
      var fin: seq<Event> := if ExpectedExit(argv, o).Returned? then [Finalized] else [];
      assert ExpectedTrace(argv, o) == SessionEvents(argv, o) + fin;
    }
  }

  /** The exit codes of the paths that return: 1 for a usage error, otherwise the
      finalization's 0 or 120. */
  lemma ReturnedCodes(argv: seq<string>, o: Oracle)
    requires ExpectedExit(argv, o).Returned?
    ensures ExpectedExit(argv, o).code == 1 <==> |argv| < 3
    ensures ExpectedExit(argv, o).code in {0, 1, 120}
  {
  }

  /** Past the usage check, the run is the session followed, on the paths that return, by
      the finalization, whose result is the exit code. */
  lemma AfterUsageCheck(argv: seq<string>, o: Oracle)
    requires 3 <= |argv|
    ensures ExpectedExit(argv, o).Returned? ==> ExpectedExit(argv, o) == Returned(FinalizeCode(o.finalized))
    ensures ExpectedExit(argv, o).Returned? ==> ExpectedTrace(argv, o) == SessionEvents(argv, o) + [Finalized]
    ensures ExpectedExit(argv, o).Threw? ==> ExpectedTrace(argv, o) == SessionEvents(argv, o)
  {
  }

  lemma LookupEventsInOrder(argv: seq<string>, o: Oracle, t: seq<Event>)
    requires 3 <= |argv|
    ensures o.attribute.None? ==> t + LookupEvents(argv, o) == t + NotFoundEvents(argv, o)
    ensures o.attribute.Some? && o.callable ==>
      t + LookupEvents(argv, o) == t + [CallableChecked(o.attribute.value)] + InvokeEvents(argv, o, o.attribute.value)
    ensures o.attribute.Some? && !o.callable ==>
      t + LookupEvents(argv, o) == t + [CallableChecked(o.attribute.value)] + NotFoundEvents(argv, o)
  {
  }
}
