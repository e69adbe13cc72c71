# PIC-MDK core, modelled in Dafny

PIC-MDK is a framework for particle-in-cell simulation modules. A *controller* keeps the
iteration clock and lists of *handlers*. A handler is a piece of module code that reacts to
an event: the start of an iteration, a particle push, a cell visit, or output. *Modules*
bundle up to ten handler classes and route each of them, by its kind, to the controller.
The *module instantiator* turns a list of (module name, instance name) requests into
modules added to the controller. The *InterData* component holds the data sets that
handlers export and import:
- flat buffers with row-major index maps;
- synchronizers that combine per-thread copies;
- finalizers that treat the original afterwards.

Around these sit integer vectors, exceptions with a fixed text layout, and a
single-process MPI stub.

The model has one module per component:

| file | module | models |
|---|---|---|
| wrappers.dfy | `Wrappers` | `Option`, `Outcome` (pass or fail with an error) and `Result` |
| text.dfy | `Text` | decimal rendering of integers, as `toString` prints them, with its parse-back |
| vectors.dfy | `Vectors` | `Vector2`/`Vector3` over `int` (include/Vector.h) |
| exceptions.dfy | `Exceptions` | the exception classes, their names, `operator<<` and `PICMDK_THROW` |
| events.dfy | `Events` | the event kinds and the four event classes (include/Event.h) |
| handlers.dfy | `Handlers` | handler kinds, names, the instance-name rule, registration rows and `Data` |
| controller.dfy | `Controllers` | the controller: clock, handler lists, add and run operations |
| modules.dfy | `Modules` | per-kind routing of handler classes and `ModuleImplementation` |
| handler_list.dfy | `HandlerLists` | the older `HandlerList` routing |
| module_instantiator.dfy | `ModuleInstantiators` | `instantiate` and `checkModuleDuplicates` |
| datasets.dfy | `DataSets` | `Value`/`Array`/`Array2d`/`Array3d` data sets |
| synchronizers.dfy | `Synchronizers` | synchronization modes, synchronizers and finalizers |
| interdata.dfy | `InterDatas` | export and import registration |
| mpi_stub.dfy | `MpiStub` | the single-process MPI stub (src/MPIWrapper.cpp) |

Modelling conventions:
- State the source updates in place is a `class`. Examples: the controller, a data set, the
  InterData registry, a module's instance name, and an exception's location.
- A side effect on code outside the model is an entry in an ordered trace:
  - the controller's `calls` records `init`, `registerFunctions` and `handle`;
  - its `rows` records the registered (event, handler) pairs;
  - the instantiator's `trace` records the computation-log warnings and the
    `controller.addModule` calls.
- A thrown exception is a `Fail`/`Failure` value carrying the exception class and message.
  A lookup is `Found`, `Thrown`, or `Undefined` where the source reads outside its buffer
  (undefined behaviour).
- Floating point (`Real`) is Dafny `real`. Integers are unbounded, except that `size_t`
  arithmetic in the MPI stub and the `(int)` cast in the out-of-memory message are written
  out modulo 2^64 and 2^32.
- A value the source leaves indeterminate is an explicit parameter named `unspecified`.

Where the source does not compile, the model follows the evident intent:
- include/Vector.h:57 builds a `Vector3` from two components for `Vector2 - Vector2`. The
  model returns a `Vector2`.
- include/InterData.h:293 returns `size.z` of a `Vector2`. The model returns `size.y`.
- include/InterData.h:488 names `SynchronizationMode::Add`, which is not an enumerator. The
  model reads it as `Sum`.
- include/Event.h:55 returns `PostParticlePush`, which is not an enumerator. The model
  returns `ParticlePostPush`.

Several parts of the source are unfinished. The model follows the code as written, and
keeps a corrected version beside it where the source's own text shows the intent:
- The five-argument `registerExport` (src/InterData.cpp:20-34) computes a thread index from
  `exportData.back()` (lines 32-33), which only makes sense if exports are appended. It
  never appends. `InterData.RegisterExport` and `InterData.RegisterExportDataSetAsWritten`
  model this code. `InterData.RegisterExportIntended` and `InterData.RegisterExportDataSet`
  append (see Findings).
- The enum comment at include/InterData.h:30-31 says that Clear sets the data to 0. The
  Clear finalizer adds 0 instead (line 518). Both effects are modelled.
- `finalizeInit` and `synchronizeAll` (src/InterData.cpp:50-58) have empty bodies. They
  are modelled as changing nothing.
- `Controller::registerIterationStartEventFunction` (include/Controller.h:96-99) has an empty
  body. The controller keeps its handlers in per-kind lists, and adding a Particle or Cell
  handler always throws (include/Controller.h:64-73).
- src/MPIWrapper.cpp is compiled only when `PICMDK_USE_MPI` is undefined. include/MPIWrapper.h
  defines it, so the stub is inactive as shipped. The model describes the stub's own code.

Member functions the source calls but does not define are modelled by their evident effect:
- `Controller::registerHandlerFunction` becomes `Controller.RegisterHandlerFunction`, which
  appends a row.
- `Controller::addModule` and `Controller::getComputationLog` become entries in the
  instantiator's trace.

## Model

| member | source | states |
|---|---|---|
| Text.NatDigits | include/Utility.h:61-67 | a natural number prints as a non-empty string of digits without a leading zero |
| Text.DecimalString | include/Utility.h:61-67 | an integer prints with a leading `-` exactly when negative, digits after it |
| Text.NatDigitsRoundTrip | include/Utility.h:61-67 | parsing the printed digits of `n` gives back `n` |
| Text.DecimalRoundTrip | include/Utility.h:61-67 | parsing the printed form of any integer gives it back |
| Text.DecimalStringInjective | include/Utility.h:61-67 | two integers that print the same are equal |
| Vectors.Vector2.At | include/Vector.h:24-32 | index 0 is x and index 1 is y |
| Vectors.Vector3.At | include/Vector.h:189-197 | index 0, 1 and 2 are x, y and z |
| Vectors.Vector2.PlusAssign | include/Vector.h:46-52 | `v += w` leaves `v + w`, and subtracting `w` gives back `v` |
| Vectors.Vector2.MinusAssign | include/Vector.h:60-66 | `v -= w` leaves `v - w`, and adding `w` gives back `v` |
| Vectors.Vector2.TimesAssign | include/Vector.h:74-80 | `v *= w` leaves `v * w`, whose volume is the product of the volumes |
| Vectors.Vector2.ScaleAssign | include/Vector.h:88-94 | `v *= a` leaves `v * a`, whose volume is `a^2` times the volume |
| Vectors.Vector3.PlusAssign | include/Vector.h:211-218 | `v += w` leaves `v + w`, and subtracting `w` gives back `v` |
| Vectors.Vector3.MinusAssign | include/Vector.h:226-233 | `v -= w` leaves `v - w`, and adding `w` gives back `v` |
| Vectors.Vector3.TimesAssign | include/Vector.h:241-248 | `v *= w` leaves `v * w`, whose volume is the product of the volumes |
| Vectors.Vector3.ScaleAssign | include/Vector.h:256-263 | `v *= a` leaves `v * a`, whose volume is `a^3` times the volume |
| Vectors.FromVector2 | include/Vector.h:186-187 | a `Vector3` from a `Vector2` keeps x and y, has z = 0 and so volume 0 |
| Vectors.FromVector2Indexing | include/Vector.h:186-197 | indexing the widened vector at 0 and 1 gives the original's components, at 2 gives 0 |
| Vectors.TimesVolume | include/Vector.h:235-239 | the volume of a component-wise product is the product of the volumes |
| Vectors.TimesVolume2 | include/Vector.h:68-72 | the same for `Vector2` |
| Vectors.NotEqualsIsNegation2 | include/Vector.h:124-134 | `!=` is exactly the negation of `==`, and `==` is component-wise equality |
| Vectors.NotEqualsIsNegation3 | include/Vector.h:295-305 | the same for `Vector3` |
| Vectors.Orderings2 | include/Vector.h:136-158 | `<` implies `<=` and excludes `w <= v`; `>` and `>=` are the converses; `<=` is antisymmetric |
| Vectors.Orderings3 | include/Vector.h:307-329 | the same for `Vector3` |
| Vectors.LessIsPartial2 | include/Vector.h:136-158 | some pair of distinct vectors is unordered by both `<` and `<=` |
| Vectors.LessIsPartial3 | include/Vector.h:307-329 | the same for `Vector3` |
| Vectors.DotSymmetric2 | include/Vector.h:166-170 | `dot` is symmetric |
| Vectors.DotSymmetric3 | include/Vector.h:337-341 | `dot` is symmetric |
| Vectors.CrossProperties | include/Vector.h:343-348 | `cross(v, v)` is zero, `cross(v, w)` is orthogonal to `v` and `w`, and it is anti-commutative |
| Exceptions.KindName | src/Exception.cpp:86-89 | the not-implemented exception is named "not implemented exception" |
| Exceptions.KindNamesDistinct | src/Exception.cpp:76-89 | the exception classes have pairwise different names |
| Exceptions.Int32Of | src/Exception.cpp:76-79 | `(int)bytes` is the 32-bit two's-complement value congruent to `bytes`, and `bytes` itself when it fits |
| Exceptions.Exception.Named | src/Exception.cpp:60-64 | a new exception has the given message and name, no file and line 0 |
| Exceptions.Exception.OutOfMemory | src/Exception.cpp:76-79 | the message is "Unable to allocate N byte(s) of memory" and the name "out of memory exception" |
| Exceptions.Exception.NotImplemented | src/Exception.cpp:86-89 | the message is kept and the name is "not implemented exception" |
| Exceptions.Exception.OutOfRange | include/InterData.h:147-157 | the message is kept and the name is the out-of-range exception's |
| Exceptions.Exception.SetLocation | src/Exception.cpp:38-42 | file and line become the given ones; the message is unchanged |
| Exceptions.Exception.Assign | src/Exception.cpp:20-26 | file, line and message become the other exception's, so `what()` gives its text |
| Exceptions.Format | src/Exception.cpp:49-57 | the text starts with name, ": ", message and a newline; then comes " at file:line" and a newline when a file is set, else " at unknown location" and a newline |
| Exceptions.LocatedTail | src/Exception.cpp:49-57 | a located tail " at file:line" is never the unknown-location tail |
| Exceptions.Throw | include/Exception.h:14-19 | for a class constructed from a message, the thrown exception carries the class's name and the message, and always the throw site |
| Exceptions.ThrowOutOfMemory | include/Exception.h:14-19 | thrown with a byte count, the exception carries the out-of-memory name, the message built from the count, and the throw site |
| Events.Ordinal | include/Event.h:11 | the four event kinds number below `numEvents` = 4 |
| Events.FromOrdinal | include/Event.h:11 | the enumerator whose value is n, for each n below numEvents |
| Events.OrdinalBijection | include/Event.h:11 | the four enumerators have distinct values and `numEvents` counts them: `Ordinal` and `FromOrdinal` are inverse |
| Events.Event.GetType | include/Event.h:17-97 | each event class reports its own kind and only that kind |
| Handlers.Identity.HandlerInstanceName | src/Handler.cpp:29-35 | a non-empty explicit name is returned unchanged, otherwise module instance name, "_" and handler name; never empty |
| Handlers.DefaultInstanceNameLayout | include/Handler.h:103-108 | the default name is the module instance name, then "_", then the handler name, and ends with it |
| Handlers.DefaultInstanceNamesDistinct | src/Handler.cpp:29-35 | within one module instance, different handler names give different default names |
| Handlers.InstanceNameIdempotent | src/Handler.cpp:29-35 | storing the computed instance name as the explicit one changes nothing |
| Handlers.CreateHandler | include/Controller.h:21-31 | a created handler has the class asked for and empty names, so its instance name is "_" |
| Handlers.CreatedInstanceNamesCoincide | include/Controller.h:21-31 | all created handlers share that instance name |
| Handlers.HandlerKindFor | include/Handler.h:129-202 | every event kind belongs to a real, non-dummy handler kind |
| Handlers.HandlerKindForInjective | include/Handler.h:129-202 | different event kinds belong to different handler kinds |
| Handlers.RegistrationRows | include/Handler.h:129-172 | a domain handler registers one IterationStart row, an output handler one Output row, others none |
| Handlers.RegistrationRowsWellTyped | include/Handler.h:129-172 | every registered row names the handler and matches its kind; at most one row |
| Controllers.AdvancedManyClock | include/Controller.h:102-108 | after k iterations, the iteration count grows by k and the end time by the sum of the steps; the last step is the time step; the simulation fields are unchanged |
| Controllers.IterationsAreContiguous | include/Controller.h:102-108 | each iteration starts where the previous ended and lasts its time step |
| Controllers.ClockFromDefault | include/Handler.h:88-97 | from the default `Data` the iteration after k steps is k and the end time is their sum |
| Controllers.DomainAddedProperties | include/Controller.h:75-83 | adding a domain handler calls `init` then `registerFunctions`, registers one IterationStart row, appends the handler, changes nothing else and keeps the lists well-typed |
| Controllers.OutputAddedProperties | include/Controller.h:85-91 | adding an output handler calls only `init`, appends it and changes nothing else |
| Controllers.CallsDoNotAffectValidity | include/Controller.h:147-156 | recording calls never breaks the per-kind lists |
| Controllers.Controller.constructor | include/Controller.h:56-61 | a new controller has the given data and empty lists |
| Controllers.Controller.StartIteration | include/Controller.h:102-108 | iteration + 1, start = old end, end = old end + dt, the time step is dt; nothing else changes |
| Controllers.Controller.ResetCurrentData | include/Controller.h:110-113 | the whole `Data` record is replaced; nothing else changes |
| Controllers.Controller.AddParticleHandler | include/Controller.h:64-68 | always fails with a not-implemented exception and changes nothing |
| Controllers.Controller.AddCellHandler | include/Controller.h:69-73 | always fails with a not-implemented exception and changes nothing |
| Controllers.Controller.RegisterHandlerFunction | include/Handler.h:133-137 | appends one (event, handler) row whose handler matches the event's kind, keeping every row well-typed; nothing else changes |
| Controllers.Controller.AddDomainHandler | include/Controller.h:75-83 | the new state is the domain-added state, and the per-kind lists stay well-typed |
| Controllers.Controller.AddOutputHandler | include/Controller.h:85-91 | the new state is the output-added state, and the per-kind lists stay well-typed |
| Controllers.Controller.RunDomainHandlers | include/Controller.h:132-136 | every domain handler is called once, in insertion order, after the earlier calls |
| Controllers.Controller.RunOutputHandlers | include/Controller.h:138-142 | every output handler is called once, in insertion order |
| Controllers.Controller.RunParticleHandlers | include/Controller.h:117-122 | slot `[i][threadIdx]` is called for each i in order, given an index within every inner list |
| Controllers.Controller.RunCellHandlers | include/Controller.h:125-130 | slot `[i][threadIdx]` is called for each i in order, given an index within every inner list |
| Controllers.RegisterFunctions | include/Handler.h:129-172 | a domain or output handler's `registerFunctions` appends exactly its registration rows |
| Modules.RouteOne | include/Module.h:78-112 | a class fails exactly when it is a Cell or Particle class, and then the state is unchanged |
| Modules.RouteAllSnoc | include/Module.h:62-74 | routing one more class after a passing prefix is routing it on the prefix's result |
| Modules.RouteAllAfterFailure | include/Module.h:62-74 | once a class has failed, later classes have no effect |
| Modules.RouteAllWithoutRejection | include/Module.h:62-74 | without Cell/Particle classes, all pass; domain and output lists grow by the created handlers in order, by exactly the non-dummy count; nothing else changes |
| Modules.RouteAllStopsAtFirstRejection | include/Module.h:97-107 | the first Cell or Particle class fails the whole call, and the state is the prefix's |
| Modules.RouteAllPrefixPasses | include/Module.h:62-74 | a sequence of accepted classes passes |
| Modules.DummyHasNoEffect | include/Module.h:109-112 | inserting a Dummy class anywhere changes nothing |
| Modules.AddHandler | include/Module.h:78-112 | routes one class to the add operation of its kind |
| Modules.AddAllSlots | include/Module.h:62-74 | the ten slots are routed in order, stopping at the first failure |
| Modules.ModuleImplementation.constructor | include/Module.h:39-60 | a module has its name, its ten classes and an empty instance name |
| Modules.ModuleImplementation.SetInstanceName | include/Module.h:52-60 | `getInstanceName()` afterwards returns the name just set |
| Modules.ModuleImplementation.AddHandlers | include/Module.h:62-74 | the module's classes are routed in order, as `RouteAll` |
| HandlerLists.Construct | include/HandlerList.h:28-40 | the ten classes are routed in order, with the routing of include/HandlerList.h:44-78 |
| ModuleInstantiators.DuplicateNameWarningsAtLeastOnePerModule | include/ModuleInstantiator.h:79-87 | as written, every registered module draws at least one duplicate-name warning |
| ModuleInstantiators.DuplicateNamesCounterexample | include/ModuleInstantiator.h:79-87 | one uniquely named module gives one warning as written, none as intended |
| ModuleInstantiators.DuplicateNameWarningsIntendedSpec | include/ModuleInstantiator.h:79-87 | as intended (pairs i < j), there is no warning exactly when all names differ |
| ModuleInstantiators.FirstIndex | include/ModuleInstantiator.h:67-73 | the first registered module with the name, or none exactly when no module has it |
| ModuleInstantiators.Lookup | include/ModuleInstantiator.h:65-75 | one action per request: adding the first matching module with the request's instance name, or one not-registered warning exactly when no module matches |
| ModuleInstantiators.EraseScan | include/ModuleInstantiator.h:56-64 | the scan only removes later requests and keeps the prefix up to the current one |
| ModuleInstantiators.EraseScanFinds | include/ModuleInstantiator.h:56-64 | the scan reports a duplicate exactly when an equal later request exists |
| ModuleInstantiators.StepWarnsOncePerDuplicatedRequest | include/ModuleInstantiator.h:55-75 | processing a request writes one duplicate warning exactly when an equal request follows, then its lookup |
| ModuleInstantiators.TwoIdenticalRequests | include/ModuleInstantiator.h:54-64 | two identical requests give one warning and one `addModule` |
| ModuleInstantiators.UnknownModule | include/ModuleInstantiator.h:74-75 | an unknown module gives one warning and no `addModule` |
| ModuleInstantiators.EraseSkipCounterexample | include/ModuleInstantiator.h:54-64 | three identical requests leave two active and add the module twice |
| ModuleInstantiators.WarningTextCounterexample | include/ModuleInstantiator.h:60-61 | requests A, A, B, B: as written B's duplicate warning names A; as intended it names B |
| ModuleInstantiators.DedupSpec | include/ModuleInstantiator.h:54-64 | erasing all later duplicates keeps every requested pair exactly once |
| ModuleInstantiators.ProcessIntendedLookups | include/ModuleInstantiator.h:65-75 | as intended, the lookups are exactly those of the first occurrences, in order |
| ModuleInstantiators.ProcessIntendedWarnings | include/ModuleInstantiator.h:56-62 | as intended, a request is warned about exactly when it is requested more than once |
| ModuleInstantiators.ThreeIdenticalIntended | include/ModuleInstantiator.h:54-64 | as intended, three identical requests add the module once |
| ModuleInstantiators.NamesOf | include/ModuleInstantiator.h:67-68 | the names are those of the registered modules, position by position |
| ModuleInstantiators.ModuleInstantiator.constructor | include/ModuleInstantiator.h:36-40 | no module is registered and nothing logged |
| ModuleInstantiators.ModuleInstantiator.WithModules | include/ModuleInstantiator.h:35-47 | the given distinct modules are registered, as the destructor's one delete each requires |
| ModuleInstantiators.ModuleInstantiator.CheckModuleDuplicates | include/ModuleInstantiator.h:79-87 | appends one warning per ordered pair of equal names, `i == j` included |
| ModuleInstantiators.ModuleInstantiator.EraseDuplicates | include/ModuleInstantiator.h:55-64 | erases as the scan does and warns once, in the words of `requests[i]`, when it found a duplicate |
| ModuleInstantiators.ModuleInstantiator.LookupModule | include/ModuleInstantiator.h:65-75 | appends the lookup's action; only the added module's instance name changes |
| ModuleInstantiators.ModuleInstantiator.ProcessPosition | include/ModuleInstantiator.h:54-76 | one outer iteration: the scan's warning, then the lookup |
| ModuleInstantiators.ModuleInstantiator.Instantiate | include/ModuleInstantiator.h:49-77 | the trace grows by the duplicate-name warnings and then the per-request actions in order; each module ends with the instance name of its last `addModule` |
| DataSets.ValueElement | include/InterData.h:189-197 | a value's element is its single buffer element |
| DataSets.RowMajorBounds | include/InterData.h:302-320 | a row-major offset of an in-range position lies in the buffer |
| DataSets.RowMajorInjective | include/InterData.h:302-320 | distinct in-range positions have distinct offsets |
| DataSets.RowMajorOnto | include/InterData.h:302-320 | every buffer offset is the offset of an in-range position |
| DataSets.ArrayElementSpec | include/InterData.h:238-252 | `element(index)` succeeds exactly for `0 <= index < size` with `raw[index]`, otherwise it throws out-of-range naming the index and the size |
| DataSets.ArrayMessageInjective | include/InterData.h:238-252 | the out-of-range message determines the index and the size |
| DataSets.Offset2Bijection | include/InterData.h:302-320 | the 2-D offset of an in-plane index lies in the buffer and is injective |
| DataSets.Offset2Onto | include/InterData.h:302-320 | every buffer offset is the 2-D offset of an in-plane index |
| DataSets.Array2dElementSpec | include/InterData.h:323-337 | `element(i, j)` succeeds exactly in the plane with the row-major element, otherwise it throws |
| DataSets.Array2dElementAt | include/InterData.h:339-353 | the corrected `element(IndexType)` is `element(index.x, index.y)` |
| DataSets.Array2dElementAtSpec | include/InterData.h:339-353 | the corrected check accepts exactly the in-plane indices and is never undefined |
| DataSets.Array2dIndexCheckCounterexample | include/InterData.h:341 | as written, with size (1, 5), index (3, 0) is accepted and reads outside the buffer, and the in-plane index (0, 2) throws |
| DataSets.Offset3Bijection | include/InterData.h:393-411 | the 3-D offset `(i*ny + j)*nz + k` of an in-box index lies in the buffer and is injective |
| DataSets.Offset3Onto | include/InterData.h:393-411 | every buffer offset is the 3-D offset of an in-box index |
| DataSets.Array3dElementSpec | include/InterData.h:414-444 | `element(i, j, k)` succeeds exactly in the box with the row-major element, otherwise it throws out-of-range |
| DataSets.DataSet.Empty | include/InterData.h:83-88 | the default constructor gives an empty, owned, zero-shaped buffer |
| DataSets.DataSet.Sized | include/InterData.h:90-97 | as intended (shape stored): the sized constructor allocates `rawSize` elements equal to the fill value, owned, with the given shape |
| DataSets.DataSet.SizedAsWritten | include/InterData.h:90-97 | the same, but the shape is whatever the self-initialised field holds |
| DataSets.DataSet.ChangeRaw | include/InterData.h:132-137 | the first `rawSize` elements are copied into the new buffer, which becomes the data set's, unowned; the rest of that buffer is unchanged |
| DataSets.DataSet.Destroy | include/InterData.h:99-103 | the buffer is freed exactly when the data set owns it |
| DataSets.NewValue | include/InterData.h:166-198 | a value data set holds one element, the given one |
| DataSets.NewArray | include/InterData.h:209-252 | as intended (shape stored): an array filled with `value` returns it for every in-range index and throws for the others |
| DataSets.NewArray2d | include/InterData.h:270-337 | as intended (shape stored): an `Array2d` element exists exactly for in-plane indices and each is the fill value |
| DataSets.NewArray3d | include/InterData.h:371-444 | as intended (shape stored): an `Array3d` element exists exactly for in-box indices and each is the fill value |
| DataSets.SelfInitialisedSizeCounterexample | include/InterData.h:91 | a shape that disagrees with the buffer makes an in-buffer index throw and an in-shape index read outside the buffer |
| DataSets.SizedArrayNeverUndefined | include/InterData.h:90-97 | with the shape the constructor was given, no array lookup is undefined |
| Synchronizers.CreateSynchronizer | include/InterData.h:483-491 | None and Sum have synchronizers, whose element count is the data set's; every other operation fails with not-implemented |
| Synchronizers.CreateFinalizer | include/InterData.h:524-532 | Keep gives the keep finalizer and Clear the clear finalizer over the data set's elements |
| Synchronizers.Run | include/InterData.h:457-481 | the add synchronizer adds the source into the first `numElements` destination elements, leaves the rest and a distinct source unchanged; none changes nothing |
| Synchronizers.SynchronizedCommutes | include/InterData.h:465-481 | adding two sources in either order gives the same destination |
| Synchronizers.SynchronizedAllSums | include/InterData.h:465-481 | adding a sequence of buffers gives the start value plus the column sum below `numElements` and the start value above |
| Synchronizers.FinalizedAsWrittenIsIdentity | include/InterData.h:507-522 | as written, both finalizers leave the data unchanged |
| Synchronizers.ClearFinalizerCounterexample | include/InterData.h:518 | as written `[1]` stays `[1]` under Clear; as intended it becomes `[0]` |
| Synchronizers.FinalizedClears | include/InterData.h:507-522 | the intended Clear zeroes exactly the first `numElements` elements and is idempotent |
| Synchronizers.RunFinalizerAsWritten | include/InterData.h:499-522 | the finalizer loop as written leaves the data as the as-written effect says |
| Synchronizers.RunFinalizer | include/InterData.h:499-522 | the intended finalizer loop leaves the data as the intended effect says |
| InterDatas.ThreadIdxCountsRun | src/InterData.cpp:30-33 | in a well-indexed export list, an export's thread index counts the exports of its name just before it |
| InterDatas.ThreadIdxConsecutiveInRun | src/InterData.cpp:30-33 | within a run of one name the thread indices are consecutive |
| InterDatas.InterData.constructor | include/InterData.h:554-556 | a new registry has no exports, no imports and no current handler |
| InterDatas.InterData.RegisterExport | src/InterData.cpp:20-34 | as written: the description has the data set, name, synchronizer and finalizer, `isGlobal` iff the locality is global, a null destination and the inferred thread index; nothing is appended |
| InterDatas.InterData.RegisterExportIntended | src/InterData.cpp:20-34 | the same description is appended, and the export list stays well-indexed |
| InterDatas.InterData.RegisterExportDataSetAsWritten | include/InterData.h:47-51 | as written: fails exactly when no synchronizer exists for the mode; otherwise returns the description with the created synchronizer and finalizer and the inferred thread index, and records nothing |
| InterDatas.InterData.RegisterExportDataSet | include/InterData.h:47-51 | as intended: fails, registering nothing, exactly when no synchronizer exists for the mode; otherwise appends the description with the created synchronizer and finalizer |
| InterDatas.InterData.RegisterImport | src/InterData.cpp:36-42 | appends one (data set, name) import; nothing else changes |
| InterDatas.InterData.SetCurrentHandler | src/InterData.cpp:45-48 | stores the handler; nothing else changes |
| InterDatas.InterData.FinalizeInit | src/InterData.cpp:50-53 | changes nothing |
| InterDatas.InterData.SynchronizeAll | src/InterData.cpp:55-58 | changes nothing |
| InterDatas.RegisterTwiceAsWritten | src/InterData.cpp:20-34 | two exports of one name both get thread index 0 and none is recorded |
| InterDatas.RegisterTwiceIntended | src/InterData.cpp:20-34 | as intended they get 0 and 1 and are recorded in order |
| MpiStub.GetSize | src/MPIWrapper.cpp:9-19 | null is 0, char 1, int and float 4, double 8, and any other code `(size_t)-1` |
| MpiStub.ByteCount | src/MPIWrapper.cpp:75 | `count * getSize(type)` modulo 2^64, the exact product when it fits |
| MpiStub.ByteCountWraps | src/MPIWrapper.cpp:75 | a count of -1, or an unknown type, gives a byte count near 2^64 |
| MpiStub.ByteCountAcrossTypes | src/MPIWrapper.cpp:75 | byte counts compare across types: two ints match eight chars and one double |
| MpiStub.CommRank | src/MPIWrapper.cpp:22-26 | rank 0, success |
| MpiStub.CommSize | src/MPIWrapper.cpp:28-32 | size 1, success |
| MpiStub.CommDup | src/MPIWrapper.cpp:34-37 | the duplicate is the same handle |
| MpiStub.Barrier | src/MPIWrapper.cpp:39-42 | success |
| MpiStub.Send | src/MPIWrapper.cpp:44-49 | failure; nothing is written |
| MpiStub.Recv | src/MPIWrapper.cpp:51-56 | failure; the buffer is untouched |
| MpiStub.Sendrecv | src/MPIWrapper.cpp:58-64 | failure; the buffer is untouched |
| MpiStub.Bcast | src/MPIWrapper.cpp:66-70 | failure; the buffer is untouched |
| MpiStub.Gather | src/MPIWrapper.cpp:72-82 | succeeds exactly when the root is 0 and the byte counts match, then copies that many bytes; otherwise fails with the buffer unchanged |
| MpiStub.CopiedSpec | src/MPIWrapper.cpp:77 | after the copy the first n bytes are the source's, the rest the destination's, and copying again changes nothing |
| MpiStub.Reduce | src/MPIWrapper.cpp:84-89 | copies `count * getSize(type)` bytes whatever the operation and succeeds |
| MpiStub.Allreduce | src/MPIWrapper.cpp:91-95 | the same as reduce with root 0 |

## Left out

- The communicator (src/Communicator.cpp), the computation log's file and console output,
  the OpenMP wrapper, the adapter interfaces, the physical constants and `Range`: these
  are transport, I/O, threading, declarations and unfinished code. The log is modelled
  only as the ordered warnings in the instantiator's trace, and a thread index is a
  parameter.
- The event objects that `run*Handlers` forward to the handlers are not recorded in
  `calls`, which names the called handler and the thread index. The event getters are
  the datatype's fields.
- `Controller::registerIterationStartEventFunction` has an empty body, and nothing is
  modelled for it.
- `getHandlerName`, `getModuleName` and `getModuleInstanceName` return their fields. In
  the model they are the `Handlers.Identity` accessors, with no contract of their own. The
  same holds for `Exception::getFile`, `getLine` and `getName`. It also holds for the data
  set accessors `DataSets.DataSet.GetNumElements` (include/InterData.h:105-108, 296-299,
  387-390), `DataSets.DataSet.GetSize` (:221-224, 281-284, 382-385) and
  `DataSets.DataSet.GetNumRows` (:286-289).
- `DataSets.DataSet.GetNumCols` returns `size.y`. The source returns `size.z` of a
  `Vector2` (include/InterData.h:293), which does not compile. `DataSets.DataSet.Element`
  dispatches to the lookup functions whose contracts are the `*ElementSpec` lemmas.
- DataSets.NewArray, DataSets.NewArray2d and DataSets.NewArray3d: these build on the
  corrected constructor `DataSet.Sized`, which stores the shape. As written
  (include/InterData.h:91) every sized constructor leaves the shape indeterminate. The source
  then guarantees neither the in-range/out-of-range split nor the absence of reads outside
  the buffer. `DataSet.SizedAsWritten` and `SelfInitialisedSizeCounterexample` model that
  case.
- InterDatas.InterData.RegisterExportDataSet: this is the template `registerExport` as
  intended, which appends the description. As written it reaches the non-appending
  `registerExport` and records nothing. `InterData.RegisterExportDataSetAsWritten` models
  that.
- Handler `init`, `save` and `load` have empty bodies. `init` is recorded as a call in the
  controller's trace; `save` and `load` work on streams and are not modelled.
- The unchecked casts in the internal handler functions (include/Handler.h:177-202).
- The `CellHandler`, `ParticleHandler`, `OutputHandler` and `DummyHandler` constructors
  (include/Handler.h:146, 154, 165, 211) do not compile: they pass undeclared `HandlerType_*`
  names to `HandlerImplementation`, which declares no constructor. `Handlers.CreateHandler`
  stands for the default construction they evidently intend, with the kind of the class.
- InterDatas.InterData.RegisterImport: the public template `registerImport`
  (include/InterData.h:54-58) compiles, and for every concrete data-set pointer it calls
  itself, because the exact template match beats the conversion to `DataSetBase*` that the
  private overload (line 552) needs. It recurses without end and records nothing. A method
  that does not terminate cannot be written in this model, so `RegisterImport` models the
  private `push_back` (src/InterData.cpp:36-42) as the intended import.
- Vector `/` and `/=`: C++ integer division truncates, and the floating-point case is out
  of scope. `ToString` renders vectors as "(x, y)" and "(x, y, z)", taking integer
  printing as plain decimal.
- Floating point: the clock uses `real`, with no claim about rounding.
- Byte layouts of data sets (`getRaw`, `void*`, `sizeof`): buffers hold `int` elements.
  The MPI stub works on bytes, but its send buffer is a value (`seq<bv8>`), so overlap of
  the send and receive buffers, which `memcpy` forbids, is not modelled.
- `MpiStub.Gather`, `MpiStub.Reduce`, `MpiStub.Allreduce`: they require the buffers to hold
  the bytes copied. `memcpy` demands this, and the source does not check it.
- DataSets.DataSet.Sized: requires a non-negative `rawSize`. A negative size makes the
  source's `new T[rawSize]` throw `std::bad_array_new_length`, which is not modelled.
- DataSets.DataSet.Empty: the default constructor without a shape (`Value`) is not modelled
  separately. The source leaves the array's size member indeterminate, so it is the
  parameter `unspecified`.
- `InterDatas.InterData.constructor`: `currentHandler` starts as no handler. The source
  does not initialise the pointer.
- `DataSets.DataSet.Destroy` reports whether `delete[] raw` runs, and does not model the
  deallocation.
- The dispatch table, reductions other than Sum (Max, Min, Average, Gather), and local and
  global synchronization phases have no code in the source (`synchronizeAll` is empty).
- `ModuleInstantiators.ModuleInstantiator.WithModules` stands for the module registrations
  that the source's constructor body is meant to hold: that body is empty. The destructor's
  `delete` of each module is not modelled.
- `ModuleInstantiators.ModuleInstantiator.Instantiate`: the `setInstanceName` effect is stated
  per module index. Modules are required to be distinct objects, as the destructor deletes
  each one.

## Findings

| source | as written | input that shows it | evidently intended | confidence | as-written member | corrected member |
|---|---|---|---|---|---|---|
| include/InterData.h:341 | `element(IndexType)` checks `index.y < size.x` and never bounds `index.x` | size (1, 5), index (3, 0) is accepted and reads outside the buffer; (0, 2) throws | `index.x < size.x` | not executed | DataSets.Array2dIndexCheckCounterexample | DataSets.Array2dElementAtSpec |
| include/InterData.h:518 | the Clear finalizer does `d[i] += 0` | `[1]` stays `[1]` | set each element to 0, as the enum's comment says | not executed | Synchronizers.ClearFinalizerCounterexample | Synchronizers.FinalizedClears |
| src/InterData.cpp:20-34 | `registerExport` fills the description but never appends it | two exports named "E" both get thread index 0 and none is recorded | append it, so that thread indices count up | not executed | InterDatas.RegisterTwiceAsWritten | InterDatas.RegisterTwiceIntended |
| include/InterData.h:91 | `size(size)` initialises the member from itself | a shape of 3 over 100 elements throws for index 50, and a shape of 100 over 3 elements reads outside the buffer | initialise from the parameter `_size` | not executed | DataSets.SelfInitialisedSizeCounterexample | DataSets.SizedArrayNeverUndefined |
| include/ModuleInstantiator.h:82-84 | the inner loop starts at `j = 0`, so each module matches itself | one module named "a" gives a duplicate-name warning | compare only pairs `i < j` | not executed | ModuleInstantiators.DuplicateNamesCounterexample | ModuleInstantiators.DuplicateNameWarningsIntendedSpec |
| include/ModuleInstantiator.h:56-63 | after `erase(j)` the loop still does `j++`, so the request moved into position `j` is never compared | three identical requests add the module twice | erase every later duplicate | not executed | ModuleInstantiators.EraseSkipCounterexample | ModuleInstantiators.DedupSpec |
| include/ModuleInstantiator.h:60-61 | the duplicate warning is worded from `requests[i]`, but erasures shift `activeRequests` | requests A, A, B, B: the warning for B names A | word it from `activeRequests[i]` | not executed | ModuleInstantiators.WarningTextCounterexample | ModuleInstantiators.ProcessIntendedWarnings |
