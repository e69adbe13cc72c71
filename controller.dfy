/**
 * The controller (include/Controller.h): it owns the current simulation `Data`, advances the
 * iteration clock, creates handlers from handler classes and keeps one list per handler
 * kind, and runs the handlers of a kind in the order they were added.
 *
 * The user-written handler bodies are represented by the calls the controller makes into
 * handlers, recorded in order in `calls`; the registrations `registerFunctions` requests are
 * recorded in `rows`.
 */
module Controllers {
  import opened Wrappers
  import opened Handlers
  import Events
  import Exceptions

  /** A call from the framework into a handler. */
  datatype Call =
    | Init(handler: Handler)
    | Register(handler: Handler)
    | Handle(handler: Handler, threadIdx: Option<int>)

  /** `startIteration(timeStep)` applied to `d`. */
  function Advanced(d: Data, timeStep: real): Data {
    d.(iteration := d.iteration + 1,
       timeStep := timeStep,
       iterationStartTime := d.iterationEndTime,
       iterationEndTime := d.iterationEndTime + timeStep)
  }

  /** `startIteration` called with each of `steps` in turn. */
  function AdvancedMany(d: Data, steps: seq<real>): Data
    decreases |steps|
  {
    if steps == [] then d else Advanced(AdvancedMany(d, steps[..|steps| - 1]), steps[|steps| - 1])
  }

  function Sum(steps: seq<real>): real
    decreases |steps|
  {
    if steps == [] then 0.0 else Sum(steps[..|steps| - 1]) + steps[|steps| - 1]
  }

  /**
   * Over k calls the iteration counter advances by exactly k, the end time by the sum of the
   * steps, the current step is the last one given, and the simulation limits stay.
   */
  lemma {:induction false} AdvancedManyClock(d: Data, steps: seq<real>)
    ensures AdvancedMany(d, steps).iteration == d.iteration + |steps|
    ensures AdvancedMany(d, steps).iterationEndTime == d.iterationEndTime + Sum(steps)
    ensures steps != [] ==> AdvancedMany(d, steps).timeStep == steps[|steps| - 1]
    ensures AdvancedMany(d, steps).simulationStartTime == d.simulationStartTime
    ensures AdvancedMany(d, steps).simulationEndTime == d.simulationEndTime
    ensures AdvancedMany(d, steps).numIterations == d.numIterations
    decreases |steps|
  {
    if steps != [] {
      AdvancedManyClock(d, steps[..|steps| - 1]);
    }
  }

  /** Each iteration starts where the previous one ended: the intervals tile the time axis. */
  lemma IterationsAreContiguous(d: Data, steps: seq<real>, k: nat)
    requires 0 < k <= |steps|
    ensures AdvancedMany(d, steps[..k]).iterationStartTime == AdvancedMany(d, steps[..k - 1]).iterationEndTime
    ensures AdvancedMany(d, steps[..k]).iterationEndTime - AdvancedMany(d, steps[..k]).iterationStartTime == steps[k - 1]
  {
    assert steps[..k][..k - 1] == steps[..k - 1];
  }

  /** Starting from the default `Data`, after k iterations the counter is k and the clock is the sum of the steps. */
  lemma ClockFromDefault(steps: seq<real>)
    ensures AdvancedMany(DefaultData, steps).iteration == |steps|
    ensures AdvancedMany(DefaultData, steps).iterationEndTime == Sum(steps)
  {
    AdvancedManyClock(DefaultData, steps);
  }

  /** The controller's state as a value. */
  datatype ControllerState = ControllerState(
    data: Data,
    particleHandlers: seq<seq<Handler>>,
    cellHandlers: seq<seq<Handler>>,
    domainHandlers: seq<Handler>,
    outputHandlers: seq<Handler>,
    rows: seq<Row>,
    calls: seq<Call>)

  /** Each list holds handlers of its own kind, and every registered row is well-typed. */
  predicate ValidState(s: ControllerState) {
    && (forall i, j :: 0 <= i < |s.particleHandlers| && 0 <= j < |s.particleHandlers[i]| ==> s.particleHandlers[i][j].GetType() == Particle)
    && (forall i, j :: 0 <= i < |s.cellHandlers| && 0 <= j < |s.cellHandlers[i]| ==> s.cellHandlers[i][j].GetType() == HandlerType.Cell)
    && (forall h :: h in s.domainHandlers ==> h.GetType() == Domain)
    && (forall h :: h in s.outputHandlers ==> h.GetType() == HandlerType.Output)
    && (forall r :: r in s.rows ==> WellTyped(r))
  }

  /** `addDomainHandler`: create, `init`, `registerFunctions`, then append. */
  function DomainAdded(s: ControllerState, cls: HandlerClass): ControllerState {
    var h := CreateHandler(cls);
    s.(calls := s.calls + [Init(h), Register(h)],
       rows := s.rows + RegistrationRows(h),
       domainHandlers := s.domainHandlers + [h])
  }

  /** `addOutputHandler`: create, `init`, then append; `registerFunctions` is not called. */
  function OutputAdded(s: ControllerState, cls: HandlerClass): ControllerState {
    var h := CreateHandler(cls);
    s.(calls := s.calls + [Init(h)],
       outputHandlers := s.outputHandlers + [h])
  }

  /**
   * Adding a domain handler calls `init` before `registerFunctions`, registers exactly one
   * `IterationStart` row, appends the handler after the earlier ones and keeps the state valid.
   */
  lemma DomainAddedProperties(s: ControllerState, cls: HandlerClass)
    requires ValidState(s) && cls.kind == Domain
    ensures var t := DomainAdded(s, cls); var h := CreateHandler(cls);
      && ValidState(t)
      && |t.calls| == |s.calls| + 2 && t.calls[|s.calls|] == Init(h) && t.calls[|s.calls| + 1] == Register(h)
      && t.rows == s.rows + [Row(Events.IterationStart, h)]
      && |t.domainHandlers| == |s.domainHandlers| + 1
      && t.domainHandlers[..|s.domainHandlers|] == s.domainHandlers
      && t.domainHandlers[|s.domainHandlers|] == h
      && t.outputHandlers == s.outputHandlers && t.data == s.data
  {
    var t := DomainAdded(s, cls);
    RegistrationRowsWellTyped(CreateHandler(cls));
    assert t.domainHandlers[..|s.domainHandlers|] == s.domainHandlers;
  }

  /** Adding an output handler calls only `init`, registers nothing and appends the handler. */
  lemma OutputAddedProperties(s: ControllerState, cls: HandlerClass)
    requires ValidState(s) && cls.kind == HandlerType.Output
    ensures var t := OutputAdded(s, cls); var h := CreateHandler(cls);
      && ValidState(t)
      && t.calls == s.calls + [Init(h)]
      && t.rows == s.rows
      && |t.outputHandlers| == |s.outputHandlers| + 1
      && t.outputHandlers[..|s.outputHandlers|] == s.outputHandlers
      && t.outputHandlers[|s.outputHandlers|] == h
      && t.domainHandlers == s.domainHandlers && t.data == s.data
  {
    var t := OutputAdded(s, cls);
    assert t.outputHandlers[..|s.outputHandlers|] == s.outputHandlers;
  }

  const ParticleHandlersMessage: string := "Particle handlers are not currently implemented"
  const CellHandlersMessage: string := "Cell handlers are not currently implemented"

  class Controller {
    var data: Data
    var particleHandlers: seq<seq<Handler>>
    var cellHandlers: seq<seq<Handler>>
    var domainHandlers: seq<Handler>
    var outputHandlers: seq<Handler>
    var rows: seq<Row>
    var calls: seq<Call>

    function State(): ControllerState
      reads this
    {
      ControllerState(data, particleHandlers, cellHandlers, domainHandlers, outputHandlers, rows, calls)
    }

    predicate Valid()
      reads this
    {
      ValidState(State())
    }

    /** `Controller(data, communicator, input)`: the communicator and input are not modelled. */
    constructor(data: Data)
      ensures State() == ControllerState(data, [], [], [], [], [], [])
      ensures Valid()
    {
      this.data := data;
      particleHandlers := [];
      cellHandlers := [];
      domainHandlers := [];
      outputHandlers := [];
      rows := [];
      calls := [];
    }

    /** `startIteration(timeStep)`: the four updates in the source's order. */
    method StartIteration(timeStep: real)
      requires Valid()
      modifies this
      ensures Valid()
      ensures data == Advanced(old(data), timeStep)
      ensures data.iteration == old(data.iteration) + 1
      ensures data.iterationStartTime == old(data.iterationEndTime)
      ensures data.iterationEndTime == old(data.iterationEndTime) + timeStep
      ensures State() == old(State()).(data := data)
    {
      data := data.(iteration := data.iteration + 1);
      data := data.(timeStep := timeStep);
      data := data.(iterationStartTime := data.iterationEndTime);
      data := data.(iterationEndTime := data.iterationEndTime + data.timeStep);
    }

    /** `resetCurrentData(newData)`: the whole record is replaced. */
    method ResetCurrentData(newData: Data)
      requires Valid()
      modifies this
      ensures Valid()
      ensures State() == old(State()).(data := newData)
    {
      data := newData;
    }

    /** `addParticleHandler`: always throws, before any state is touched. */
    method AddParticleHandler(cls: HandlerClass) returns (o: Outcome<Exceptions.Failure>)
      ensures o == Fail(Exceptions.Failure(Exceptions.NotImplemented, ParticleHandlersMessage))
    {
      o := Fail(Exceptions.Failure(Exceptions.NotImplemented, ParticleHandlersMessage));
    }

    /** `addCellHandler`: always throws, before any state is touched. */
    method AddCellHandler(cls: HandlerClass) returns (o: Outcome<Exceptions.Failure>)
      ensures o == Fail(Exceptions.Failure(Exceptions.NotImplemented, CellHandlersMessage))
    {
      o := Fail(Exceptions.Failure(Exceptions.NotImplemented, CellHandlersMessage));
    }

    /**
     * `registerHandlerFunction(function, event, handler)`, the call `registerFunctions`
     * makes. Controller.h does not define it (its `registerIterationStartEventFunction` has
     * an empty body), so the model records the requested registration.
     */
    method RegisterHandlerFunction(event: Events.EventType, handler: Handler)
      requires Valid() && WellTyped(Row(event, handler))
      modifies this
      ensures Valid()
      ensures State() == old(State()).(rows := old(rows) + [Row(event, handler)])
    {
      rows := rows + [Row(event, handler)];
    }

    /** `addDomainHandler<C>()`. */
    method AddDomainHandler(cls: HandlerClass)
      requires Valid() && cls.kind == Domain
      modifies this
      ensures Valid()
      ensures State() == DomainAdded(old(State()), cls)
    {
      var handler := CreateHandler(cls);
      calls := calls + [Init(handler)];
      calls := calls + [Register(handler)];
      RegisterFunctions(handler, this);
      domainHandlers := domainHandlers + [handler];
    }

    /** `addOutputHandler<C>()`. */
    method AddOutputHandler(cls: HandlerClass)
      requires Valid() && cls.kind == HandlerType.Output
      modifies this
      ensures Valid()
      ensures State() == OutputAdded(old(State()), cls)
    {
      var handler := CreateHandler(cls);
      calls := calls + [Init(handler)];
      outputHandlers := outputHandlers + [handler];
    }

    /** `runDomainHandlers`: every domain handler is called once, in insertion order. */
    method RunDomainHandlers()
      requires Valid()
      modifies this
      ensures Valid()
      ensures State() == old(State()).(calls := calls)
      ensures |calls| == |old(calls)| + |domainHandlers|
      ensures calls[..|old(calls)|] == old(calls)
      ensures forall k :: 0 <= k < |domainHandlers| ==> calls[|old(calls)| + k] == Handle(domainHandlers[k], None)
    {
      var i := 0;
      while i < |domainHandlers|
        invariant 0 <= i <= |domainHandlers|
        invariant State() == old(State()).(calls := calls)
        invariant |calls| == |old(calls)| + i
        invariant calls[..|old(calls)|] == old(calls)
        invariant forall k :: 0 <= k < i ==> calls[|old(calls)| + k] == Handle(domainHandlers[k], None)
      {
        calls := calls + [Handle(domainHandlers[i], None)];
        i := i + 1;
      }
    }

    /** `runOutputHandlers`: every output handler is called once, in insertion order. */
    method RunOutputHandlers()
      requires Valid()
      modifies this
      ensures Valid()
      ensures State() == old(State()).(calls := calls)
      ensures |calls| == |old(calls)| + |outputHandlers|
      ensures calls[..|old(calls)|] == old(calls)
      ensures forall k :: 0 <= k < |outputHandlers| ==> calls[|old(calls)| + k] == Handle(outputHandlers[k], None)
    {
      var i := 0;
      while i < |outputHandlers|
        invariant 0 <= i <= |outputHandlers|
        invariant State() == old(State()).(calls := calls)
        invariant |calls| == |old(calls)| + i
        invariant calls[..|old(calls)|] == old(calls)
        invariant forall k :: 0 <= k < i ==> calls[|old(calls)| + k] == Handle(outputHandlers[k], None)
      {
        calls := calls + [Handle(outputHandlers[i], None)];
        i := i + 1;
      }
    }

    /**
     * `runParticleHandlers`: for each particle handler class in order, the copy belonging to
     * thread `threadIdx` is called; `threadIdx` must index every per-thread list.
     */
    method RunParticleHandlers(threadIdx: int)
      requires Valid()
      requires 0 <= threadIdx
      requires forall i :: 0 <= i < |particleHandlers| ==> threadIdx < |particleHandlers[i]|
      modifies this
      ensures Valid()
      ensures State() == old(State()).(calls := calls)
      ensures |calls| == |old(calls)| + |particleHandlers|
      ensures calls[..|old(calls)|] == old(calls)
      ensures forall k :: 0 <= k < |particleHandlers| ==> calls[|old(calls)| + k] == Handle(particleHandlers[k][threadIdx], Some(threadIdx))
    {
      var i := 0;
      while i < |particleHandlers|
        invariant 0 <= i <= |particleHandlers|
        invariant State() == old(State()).(calls := calls)
        invariant |calls| == |old(calls)| + i
        invariant calls[..|old(calls)|] == old(calls)
        invariant forall k :: 0 <= k < i ==> calls[|old(calls)| + k] == Handle(particleHandlers[k][threadIdx], Some(threadIdx))
      {
        calls := calls + [Handle(particleHandlers[i][threadIdx], Some(threadIdx))];
        i := i + 1;
      }
    }

    /** `runCellHandlers`: as `runParticleHandlers`, over the cell handler lists. */
    method RunCellHandlers(threadIdx: int)
      requires Valid()
      requires 0 <= threadIdx
      requires forall i :: 0 <= i < |cellHandlers| ==> threadIdx < |cellHandlers[i]|
      modifies this
      ensures Valid()
      ensures State() == old(State()).(calls := calls)
      ensures |calls| == |old(calls)| + |cellHandlers|
      ensures calls[..|old(calls)|] == old(calls)
      ensures forall k :: 0 <= k < |cellHandlers| ==> calls[|old(calls)| + k] == Handle(cellHandlers[k][threadIdx], Some(threadIdx))
    {
      var i := 0;
      while i < |cellHandlers|
        invariant 0 <= i <= |cellHandlers|
        invariant State() == old(State()).(calls := calls)
        invariant |calls| == |old(calls)| + i
        invariant calls[..|old(calls)|] == old(calls)
        invariant forall k :: 0 <= k < i ==> calls[|old(calls)| + k] == Handle(cellHandlers[k][threadIdx], Some(threadIdx))
      {
        calls := calls + [Handle(cellHandlers[i][threadIdx], Some(threadIdx))];
        i := i + 1;
      }
    }
  }

  /**
   * `DomainHandler::registerFunctions` and `OutputHandler::registerFunctions`: register the
   * handler's own rows with the controller.
   */
  method RegisterFunctions(handler: Handler, controller: Controller)
    requires controller.Valid() && handler.GetType() in {Domain, HandlerType.Output}
    modifies controller
    ensures controller.Valid()
    ensures controller.State() == old(controller.State()).(rows := old(controller.rows) + RegistrationRows(handler))
  {
    if handler.GetType() == Domain {
      controller.RegisterHandlerFunction(Events.IterationStart, handler);
    } else {
      controller.RegisterHandlerFunction(Events.Output, handler);
    }
  }

  /** The run methods only append calls, so the controller stays valid across them. */
  lemma CallsDoNotAffectValidity(s: ControllerState, calls: seq<Call>)
    requires ValidState(s)
    ensures ValidState(s.(calls := calls))
  {
  }
}
