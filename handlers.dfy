/**
 * Handlers (include/Handler.h, src/Handler.cpp): the unit of work a module contributes.
 * A handler has a kind, four names, and, for the Domain and Output kinds, the event it
 * registers for with the controller. The user-written `handle` bodies are not part of the
 * framework and are represented by the calls the controller makes to them.
 */
module Handlers {
  import Events

  /** `Handler::Type`. */
  datatype HandlerType = Cell | Domain | Output | Particle | Dummy

  /**
   * A handler class written by a module developer: its name (used to tell classes apart)
   * and the framework base class it derives from.
   */
  datatype HandlerClass = HandlerClass(className: string, kind: HandlerType)

  /** The four name fields of `HandlerImplementation`. */
  datatype Identity = Identity(handlerName: string, handlerInstanceName: string,
                               moduleName: string, moduleInstanceName: string)
  {
    function HandlerName(): string {
      handlerName
    }

    function ModuleName(): string {
      moduleName
    }

    function ModuleInstanceName(): string {
      moduleInstanceName
    }

    /**
     * `getHandlerInstanceName()`: the explicit instance name when one is set, otherwise the
     * module instance name and the handler name joined by an underscore.
     */
    function HandlerInstanceName(): (n: string)
      ensures |n| > 0
      ensures handlerInstanceName != "" ==> n == handlerInstanceName
      ensures handlerInstanceName == "" ==> n == ModuleInstanceName() + "_" + HandlerName()
    {
      if handlerInstanceName != "" then handlerInstanceName
      else ModuleInstanceName() + "_" + HandlerName()
    }
  }

  /**
   * The default instance name starts with the module instance name, then an underscore,
   * and ends with the handler name.
   */
  lemma DefaultInstanceNameLayout(id: Identity)
    requires id.handlerInstanceName == ""
    ensures var n := id.HandlerInstanceName();
      && |n| == |id.moduleInstanceName| + 1 + |id.handlerName|
      && n[..|id.moduleInstanceName|] == id.moduleInstanceName
      && n[|id.moduleInstanceName|] == '_'
      && n[|id.moduleInstanceName| + 1..] == id.handlerName
  {
    var n := id.HandlerInstanceName();
    assert n == id.moduleInstanceName + "_" + id.handlerName;
    assert n[|id.moduleInstanceName| + 1..] == id.handlerName;
  }

  /**
   * Within one module instance, handlers with different handler names get different default
   * instance names.
   */
  lemma DefaultInstanceNamesDistinct(a: Identity, b: Identity)
    requires a.handlerInstanceName == "" && b.handlerInstanceName == ""
    requires a.moduleInstanceName == b.moduleInstanceName
    requires a.HandlerInstanceName() == b.HandlerInstanceName()
    ensures a.handlerName == b.handlerName
  {
    DefaultInstanceNameLayout(a);
    DefaultInstanceNameLayout(b);
  }

  /**
   * Storing the reported instance name as the explicit one changes nothing: the rule is
   * idempotent, and an explicit non-empty name is returned unchanged.
   */
  lemma InstanceNameIdempotent(id: Identity)
    ensures id.(handlerInstanceName := id.HandlerInstanceName()).HandlerInstanceName() == id.HandlerInstanceName()
  {
  }

  /** A handler object: its class and its names. */
  datatype Handler = Handler(cls: HandlerClass, identity: Identity)
  {
    /** The kind of the handler's class; the source defines `getType` only in `DomainHandler`. */
    function GetType(): HandlerType {
      cls.kind
    }
  }

  /**
   * `HandlerInitializer::createHandler`: a default-constructed handler of the class. The
   * assignments of the handler's context pointers are commented out, and nothing sets the
   * name fields, so all four names are empty.
   */
  function CreateHandler(cls: HandlerClass): (h: Handler)
    ensures h.cls == cls
    ensures h.identity.HandlerInstanceName() == "_"
  {
    Handler(cls, Identity("", "", "", ""))
  }

  /** Every handler the controller creates reports the same instance name "_". */
  lemma CreatedInstanceNamesCoincide(c: HandlerClass, d: HandlerClass)
    ensures CreateHandler(c).identity.HandlerInstanceName() == CreateHandler(d).identity.HandlerInstanceName()
  {
  }

  /** One registration of a handler for an event kind, as `registerFunctions` requests it. */
  datatype Row = Row(event: Events.EventType, handler: Handler)

  /**
   * The handler base class each `internal::*HandlerFunction` casts its handler to, by the
   * event kind that function is registered for.
   */
  function HandlerKindFor(e: Events.EventType): (k: HandlerType)
    ensures k != Dummy
  {
    match e
    case IterationStart => Domain
    case ParticlePostPush => Particle
    case Cell => HandlerType.Cell
    case Output => HandlerType.Output
  }

  /** Each handler kind is served by at most one event kind. */
  lemma HandlerKindForInjective(e: Events.EventType, f: Events.EventType)
    requires HandlerKindFor(e) == HandlerKindFor(f)
    ensures e == f
  {
  }

  /** A row is well-typed when the internal function for its event can cast its handler. */
  predicate WellTyped(r: Row) {
    HandlerKindFor(r.event) == r.handler.GetType()
  }

  /**
   * The rows `registerFunctions` requests: a `DomainHandler` registers for `IterationStart`,
   * an `OutputHandler` for `Output`; the other kinds define no registration.
   */
  function RegistrationRows(h: Handler): (rows: seq<Row>)
    ensures h.GetType() == Domain ==> rows == [Row(Events.IterationStart, h)]
    ensures h.GetType() == HandlerType.Output ==> rows == [Row(Events.Output, h)]
    ensures h.GetType() !in {Domain, HandlerType.Output} ==> rows == []
  {
    match h.GetType()
    case Domain => [Row(Events.IterationStart, h)]
    case Output => [Row(Events.Output, h)]
    case _ => []
  }

  /** Every row a handler registers is well-typed and names that handler. */
  lemma RegistrationRowsWellTyped(h: Handler)
    ensures forall r :: r in RegistrationRows(h) ==> WellTyped(r) && r.handler == h
    ensures |RegistrationRows(h)| <= 1
  {
  }

  /** `HandlerImplementation::Data`, without the position fields. */
  datatype Data = Data(iterationStartTime: real, iterationEndTime: real, timeStep: real,
                       simulationStartTime: real, simulationEndTime: real,
                       iteration: int, numIterations: int)

  /** The default-constructed `Data`: every time, the step and both counters are zero. */
  const DefaultData: Data := Data(0.0, 0.0, 0.0, 0.0, 0.0, 0, 0)
}
