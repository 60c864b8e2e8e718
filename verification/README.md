# embedded_python: the `python::Object` handle and `low_level_embedding`

This project models two pieces of the embedded_python program in Dafny.

- **`python::Object`** is a C++ RAII handle around a CPython `PyObject*`. It owns at most one share of the object's reference count. It is modelled in module `PythonObject`.
- **`low_level_embedding`** does the following:
  - checks the command line;
  - initializes the interpreter;
  - imports the module named by `argv[1]` and fetches the attribute `argv[2]`;
  - if that attribute is callable, packs `argv[3..]` into a tuple as Python integers and calls it;
  - finalizes the interpreter.

  It is modelled in modules `Outcome` and `Embedding`.

## How the pieces fit

**`Ledger`** holds the shared state.
- A foreign object is an `ObjId`.
- Every share of an object's reference count has exactly one owner:
  - the foreign runtime (`runtime`), for example a tuple's items;
  - the host code outside any handle (`loose`), for example a new reference not yet wrapped;
  - a live handle slot.
- `Balanced` means every count equals the number of shares its owners hold.
- `Sound` means balanced, and no owner holds a negative number of shares.
- Handles live in a stack of slots, so a scope's closing brace destroys and pops its handles innermost first.

**`PythonObject`** gives every constructor, assignment operator, destructor and observer.
- Each one states its exact effect on slots and counts.
- A companion lemma proves that each one keeps the ledger balanced and sound.

**`Outcome`** describes the observable behaviour of `low_level_embedding`.
- Every answer of the foreign runtime comes from an `Oracle`: the decode, the import, the attribute lookup, the callable check, the pending-error check, the tuple, each argument conversion, the call and `Py_FinalizeEx`.
- `ExpectedExit` is the function's decision table, written independently of the procedure.
- `ExpectedTrace` is the ordered sequence of foreign calls and diagnostics on every path.

**`Embedding`** executes the function statement by statement.
- It uses the handle operations, so every `python::Object` is constructed, assigned and destroyed where the C++ does it.
- It proves that the run produces `ExpectedExit` and `ExpectedTrace`.
- It proves that all handles are gone at the end.
- It proves how every reference count moved. The count change is tied to the tuple insertions recorded in the trace.

## Model

| member | source | states |
|---|---|---|
| PythonObject.IncreaseRefCounts | cppython/CPPyObject.h:153-159 | `increase_ref` raises exactly the handle's own object's count by one; a null handle changes nothing (the `Py_XINCREF` rule) |
| PythonObject.DecreaseRefCounts | cppython/CPPyObject.h:160-166 | `decrease_ref` lowers exactly the handle's own object's count by one; a null handle changes nothing |
| PythonObject.DefaultConstruct | cppython/CPPyObject.h:61-63 | a default-constructed handle is a new null handle with an empty name; the earlier handles and all counts are unchanged |
| PythonObject.Adopt | cppython/CPPyObject.h:64-72 | constructing from a raw pointer (with or without a name) stores that pointer and name and takes over one loose share of the object without touching its count |
| PythonObject.AdoptKeepsBalance | cppython/CPPyObject.h:64-72 | adopting keeps the ledger balanced, and keeps it sound exactly when the caller owned the share it hands over |
| PythonObject.CopyConstruct | cppython/CPPyObject.h:74-81 | a copy points at the same object with the same name; a non-null source's count rises by one; a null source moves no count |
| PythonObject.CopyConstructCounts | cppython/CPPyObject.h:74-81 | over all objects, only the source's object gains a share |
| PythonObject.CopyConstructKeepsBalance | cppython/CPPyObject.h:74-81 | copy construction keeps the ledger balanced and sound |
| PythonObject.MoveConstruct | cppython/CPPyObject.h:83-91 | the new handle takes the pointer and the name, and the source is left null; no count moves; every other handle is unchanged |
| PythonObject.MoveConstructKeepsBalance | cppython/CPPyObject.h:83-91 | the share moves with the pointer, so the ledger stays balanced and sound |
| PythonObject.CopyAssign | cppython/CPPyObject.h:93-105 | self-assignment changes nothing; otherwise the destination ends with the source's pointer and name, and only the destination slot changes |
| PythonObject.CopyAssignCounts | cppython/CPPyObject.h:93-105 | for distinct handles, the destination's old object loses one share and the source's object gains one; no other count moves |
| PythonObject.CopyAssignKeepsBalance | cppython/CPPyObject.h:93-105 | copy assignment, including self-assignment, keeps the ledger balanced and sound |
| PythonObject.MoveAssign | cppython/CPPyObject.h:107-119 | self-assignment changes nothing; otherwise the destination takes the pointer and name and the source is left null; only those two slots change |
| PythonObject.MoveAssignCounts | cppython/CPPyObject.h:107-119 | for distinct handles, only the destination's old object loses a share; the moved share is not re-counted |
| PythonObject.MoveAssignKeepsBalance | cppython/CPPyObject.h:107-119 | move assignment keeps the ledger balanced and sound |
| PythonObject.Destroy | cppython/CPPyObject.h:121-124 | the destructor frees the slot and releases exactly the share it held; a null handle releases nothing |
| PythonObject.DestroyCounts | cppython/CPPyObject.h:121-124 | over all objects, only the handle's object loses a share |
| PythonObject.DestroyKeepsBalance | cppython/CPPyObject.h:121-124 | destruction keeps the ledger balanced and sound |
| PythonObject.NotIsNegatedBool | cppython/CPPyObject.h:126-133 | `operator!` holds exactly when `operator bool` does not |
| PythonObject.Get | cppython/CPPyObject.h:135-143 | `get()` and `operator*` yield no object exactly when the handle is null |
| PythonObject.SetName | cppython/CPPyObject.h:145-150 | `set_name` changes only the name: the pointer, the other slots and all counts stay as they were |
| PythonObject.SetNameKeepsBalance | cppython/CPPyObject.h:145-150 | renaming keeps the ledger balanced and sound |
| PythonObject.DefaultConstructKeepsBalance | cppython/CPPyObject.h:61-63 | a null handle holds nothing, so the ledger stays balanced and sound |
| Ledger.LiveHandleKeepsObjectAlive | cppython/CPPyObject.h:121-124 | under a sound ledger, any object a live handle points at has a count of at least one, so releasing it never drives the count below zero |
| Ledger.NewReference | cppython/CPPyObject.h:17-21 | a new reference returned by a creating call, or a `Py_INCREF` on a raw pointer, raises that object's count by one and gives the host one loose share of it; a null pointer changes nothing |
| Ledger.StealAccounts | main.cpp:84-85 | `PyTuple_SetItem` gives the tuple one share of the item and costs the caller one loose share; the ledger stays balanced, and it stays sound exactly when the caller owned such a share |
| Outcome.FinalizeCode | main.cpp:111-115 | the exit code is 120 exactly when `Py_FinalizeEx` reports failure, and 0 exactly when it succeeds |
| Outcome.FirstFailure | main.cpp:76-83 | the loop stops at the first index whose conversion fails; every earlier conversion succeeded |
| Outcome.RunInsertions | main.cpp:67-86 | over a whole run, the tuple receives exactly the converted arguments before the first failed conversion, each at its own index, and only when the callable branch is reached |
| Outcome.FinalizedIffReturned | main.cpp:111-115 | `Py_FinalizeEx` is called exactly on the paths that return after the usage check, and it is the last event; paths that throw never finalize |
| Outcome.ReturnedCodes | main.cpp:28-31 | a returned exit code is 1 exactly on a usage error; otherwise it is 0 or 120 |
| Embedding.DeclareEmpty | main.cpp:72-74 | `python::Object x; x.set_name(name)` pushes a null handle with that name; no count and no owner's shares move, and a balanced or sound ledger stays so |
| Embedding.Declare | main.cpp:45 | `Object x = Foreign()` pushes a handle that adopts the returned pointer; that object's count rises by one and no owner's shares move |
| Embedding.Reassign | main.cpp:53 | `x = Foreign()` goes through a temporary and a move assignment; afterwards `x` holds the new pointer, the new object gains one share, the old one loses one, and no other slot changes |
| Embedding.DeclareCopy | main.cpp:91 | `Object res = pValue` pushes a copy and adds one share of its object |
| Embedding.Close | main.cpp:57 | a closing brace destroys the innermost handle, releases exactly its share and pops its storage |
| Embedding.OpenModule | main.cpp:44-57 | the name block throws exactly when decoding `argv[1]` fails; otherwise `module` holds the import's result; `name` is released either way |
| Embedding.InsertArgument | main.cpp:77-85 | one iteration throws exactly when the conversion fails; otherwise it records the insertion at index `i`, and the ledger moves exactly as that insertion accounts for |
| Embedding.FillAndCall | main.cpp:76-97 | the loop followed by the call throws a conversion failure exactly when some argument fails, and otherwise a call failure exactly when the call returns null; the call is made only when every argument converted; only `pValue` changes among the handles |
| Embedding.FillArgs | main.cpp:76-86 | the loop throws exactly when some argument fails to convert; its events are the argument events up to the first failure, and only `pValue` changes among the handles |
| Embedding.CallFunction | main.cpp:87-97 | the call throws exactly when it returns null; `pValue` ends holding the result, and the temporary copy `res` is released |
| Embedding.Invoke | main.cpp:67-97 | the callable branch throws exactly on a conversion or call failure, with that failure; `args` and `pValue` are released, so the handle stack ends as it started |
| Embedding.ReportMissing | main.cpp:98-102 | without a callable, the pending Python error is printed only when one is set, then the "Cannot find function" complaint naming `argv[2]`; no handle or count changes and the function carries on |
| Embedding.Dispatch | main.cpp:67-102 | the branch throws exactly when the attribute is a callable and conversion or the call then fails; a missing or non-callable attribute only reports |
| Embedding.CallAttribute | main.cpp:60-102 | `pFunc` adopts the attribute lookup's new reference on `argv[2]` and is released at the closing brace, so the handle stack ends as it started; the branch throws exactly as the dispatch on it does |
| Embedding.LoadAndCall | main.cpp:60-108 | the `if (module)` statement throws a load failure naming `argv[1]` exactly when the import gave null; otherwise it throws exactly as the dispatch does |
| Embedding.ModuleScope | main.cpp:44-108 | the statements of the block holding `module` throw exactly when the decision table says the function throws, with the same failure; only `module` changes among the handles, and the ledger moves exactly as the recorded insertions account for |
| Embedding.Session | main.cpp:37-109 | after `Py_Initialize` the block throws exactly when the decision table says so, with the same failure; its events are the session events, and `module` is released |
| Embedding.Embed | main.cpp:24-116 | the whole function ends as the independent decision table says and produces the expected trace; the handle stack is as it started; the ledger moves exactly as the recorded insertions account for |
| Embedding.LowLevelEmbedding | main.cpp:24-116 | as written, the ledger stays balanced, but each inserted argument's loose shares fall by its insertion count while its reference count ends where it began; the ledger is unsound whenever the host had fewer loose shares to give |
| Embedding.LowLevelEmbeddingFixed | main.cpp:76-86 | with `Py_INCREF` before each insertion, a sound ledger stays sound; loose shares are untouched; every inserted argument's count rises by exactly the tuple's shares of it |
| Embedding.OverReleaseExample | main.cpp:84-85 | on `call demo add 1000`, whose argument is a fresh integer outside the small-value cache, the code as written returns 0, yet the tuple owns a share of the argument object whose count is 0, so the ledger is unsound |
| Embedding.FixedExample | main.cpp:84-85 | the same `call demo add 1000` run with the correction keeps the argument's count at 1, held by the tuple, with a sound ledger |

## Left out

- `high_level_embedding` and `main` (main.cpp:7-22, 118-122) are not modelled. They are not part of the modelled core, and `main` only prints a greeting and forwards to `low_level_embedding`.
- The search-path setup (main.cpp:33-35) is left out. It only configures module lookup, whose outcome the oracle's `imported` answer stands for.
- The internals of `Py_Initialize`, `Py_FinalizeEx`, `PyErr_Print` and `PyErr_Occurred` are left out. Each is an opaque foreign call: only its position in the trace and its answer are kept.
- The values of `atoi` and `PyLong_FromLong`, and of `PyLong_AsLong` on the result, are not modelled. Conversion is an oracle answer per index, because only success or failure and the object's identity matter to the handles.
- All text output is abstracted. This covers the usage line, the "Cannot find function" line and the result line, which become events. It also covers the `ob_refcnt` logging in `increase_ref` and `decrease_ref`, which is dropped.
- `PyTuple_New` is assumed to return a tuple, because the source never checks its result.
- The tuple's own deallocation, which would release its items, is not modelled. The model stops at the point where `args` drops its share, so the tuple's shares of its items stay in `runtime`.
- On a `throw`, every handle between the throw and the function's outer block is released as by stack unwinding, and `Py_FinalizeEx` is not called. The source does not catch the exception, so in the real program whether unwinding happens at all is implementation-defined.
- PythonObject.MoveConstruct and PythonObject.MoveAssign: the moved-from handle's name is modelled as empty. The C++ standard leaves a moved-from `std::string` in a valid but unspecified state.
- The cache of small integers kept by `PyLong_FromLong` is not modelled: each conversion is simply an object the oracle names. With a cached value the runtime already owns shares of the object, so its count does not fall to 0; the as-written ledger is still unsound whenever the host held no loose share of it beforehand, because that share then falls below zero (`Embedding.LowLevelEmbedding`).
- cppython/cppython.h is not part of this model. It only includes the CPython headers.
- Embedding.LowLevelEmbedding and Embedding.LowLevelEmbeddingFixed do not model reference counts reaching zero, or objects being deallocated when that happens. Counts are plain integers, so an over-release shows up as a negative loose share instead of a freed object.

## Findings

| source | as written | input that shows it | evidently intended | confidence | as-written member | corrected member |
|---|---|---|---|---|---|---|
| main.cpp:77-85 | `PyTuple_SetItem(*args, i, *pValue)` steals a reference, but the one share of the converted integer belongs to the handle `pValue`. The next assignment to `pValue` at main.cpp:77 or main.cpp:87 then releases that share a second time. The tuple is left owning a share nobody gave it. | `call demo add 1000`, with the conversion of `"1000"` giving a fresh object 7 (1000 lies outside the interpreter's cache of small integers, so no one else owns a share of it): at the end the tuple claims one share of object 7 but its count is 0 (`Embedding.OverReleaseExample`) | `Py_INCREF(*pValue)` before `PyTuple_SetItem`, so the tuple gets its own share | not executed | Embedding.LowLevelEmbedding | Embedding.LowLevelEmbeddingFixed |
