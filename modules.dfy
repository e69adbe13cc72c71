/**
 * Modules (include/Module.h): a module is a named set of up to ten handler classes. Adding
 * a module's handlers routes each class, in order, to the controller's add operation for its
 * kind; Dummy classes pad the list and do nothing. The first Cell or Particle class makes the
 * controller throw, which ends the sequence.
 */
module Modules {
  import opened Wrappers
  import opened Handlers
  import opened Controllers
  import Exceptions

  /** The number of handler-class slots of `ModuleImplementation` and `HandlerList`. */
  const NumSlots: nat := 10

  /** A class whose controller add operation throws. */
  predicate Rejected(cls: HandlerClass) {
    cls.kind == HandlerType.Cell || cls.kind == Particle
  }

  /** The per-kind `addHandler` overloads, as a transition of the controller's state. */
  function RouteOne(s: ControllerState, cls: HandlerClass): (r: (ControllerState, Outcome<Exceptions.Failure>))
    ensures r.1.Fail? <==> Rejected(cls)
    ensures r.1.Fail? ==> r.0 == s
  {
    match cls.kind
    case Output => (OutputAdded(s, cls), Pass)
    case Domain => (DomainAdded(s, cls), Pass)
    case Cell => (s, Fail(Exceptions.Failure(Exceptions.NotImplemented, CellHandlersMessage)))
    case Particle => (s, Fail(Exceptions.Failure(Exceptions.NotImplemented, ParticleHandlersMessage)))
    case Dummy => (s, Pass)
  }

  /** Routing a list of classes in order, stopping at the first one that throws. */
  function RouteAll(s: ControllerState, classes: seq<HandlerClass>): (ControllerState, Outcome<Exceptions.Failure>)
    decreases |classes|
  {
    if classes == [] then (s, Pass)
    else
      var r := RouteOne(s, classes[0]);
      if r.1.Fail? then r else RouteAll(r.0, classes[1..])
  }

  /** Routing one more class extends the routing of the classes before it, unless that already threw. */
  lemma {:induction false} RouteAllSnoc(s: ControllerState, classes: seq<HandlerClass>, cls: HandlerClass)
    ensures RouteAll(s, classes + [cls]) ==
      (if RouteAll(s, classes).1.Fail? then RouteAll(s, classes) else RouteOne(RouteAll(s, classes).0, cls))
    decreases |classes|
  {
    if classes == [] {
      assert [cls][1..] == [];
    } else {
      var r := RouteOne(s, classes[0]);
      assert (classes + [cls])[1..] == classes[1..] + [cls];
      if r.1.Pass? {
        RouteAllSnoc(r.0, classes[1..], cls);
      }
    }
  }

  /** Once a prefix has thrown, the classes after it have no effect. */
  lemma {:induction false} RouteAllAfterFailure(s: ControllerState, before: seq<HandlerClass>, after: seq<HandlerClass>)
    requires RouteAll(s, before).1.Fail?
    ensures RouteAll(s, before + after) == RouteAll(s, before)
    decreases |before|
  {
    assert before != [];
    var r := RouteOne(s, before[0]);
    assert (before + after)[0] == before[0];
    assert (before + after)[1..] == before[1..] + after;
    if r.1.Pass? {
      RouteAllAfterFailure(r.0, before[1..], after);
    }
  }

  /** The handlers created, in order, for the classes of kind `k`. */
  function CreatedOfKind(classes: seq<HandlerClass>, k: HandlerType): seq<Handler>
    decreases |classes|
  {
    if classes == [] then []
    else (if classes[0].kind == k then [CreateHandler(classes[0])] else []) + CreatedOfKind(classes[1..], k)
  }

  /** The number of classes that are not Dummy. */
  function NonDummyCount(classes: seq<HandlerClass>): nat
    decreases |classes|
  {
    if classes == [] then 0 else (if classes[0].kind == Dummy then 0 else 1) + NonDummyCount(classes[1..])
  }

  lemma Associates<T>(a: seq<T>, b: seq<T>, c: seq<T>)
    ensures (a + b) + c == a + (b + c)
  {
  }

  /** The tail of a list without Cell or Particle classes has none either. */
  lemma TailNotRejected(classes: seq<HandlerClass>)
    requires classes != []
    requires forall i :: 0 <= i < |classes| ==> !Rejected(classes[i])
    ensures forall i :: 0 <= i < |classes[1..]| ==> !Rejected(classes[1..][i])
  {
    forall i | 0 <= i < |classes[1..]| ensures !Rejected(classes[1..][i]) {
      assert classes[1..][i] == classes[i + 1];
    }
  }

  /** Without Cell or Particle classes, every class that is not Dummy creates one Domain or Output handler. */
  lemma {:induction false} CreatedCount(classes: seq<HandlerClass>)
    requires forall i :: 0 <= i < |classes| ==> !Rejected(classes[i])
    ensures |CreatedOfKind(classes, Domain)| + |CreatedOfKind(classes, HandlerType.Output)| == NonDummyCount(classes)
    decreases |classes|
  {
    if classes != [] {
      TailNotRejected(classes);
      CreatedCount(classes[1..]);
      assert !Rejected(classes[0]);
    }
  }

  /** The state part of `RouteAllWithoutRejection`, by induction on the classes. */
  lemma {:induction false} RouteAllStates(s: ControllerState, classes: seq<HandlerClass>)
    requires ValidState(s)
    requires forall i :: 0 <= i < |classes| ==> !Rejected(classes[i])
    ensures RouteAll(s, classes).1 == Pass
    ensures ValidState(RouteAll(s, classes).0)
    ensures RouteAll(s, classes).0.domainHandlers == s.domainHandlers + CreatedOfKind(classes, Domain)
    ensures RouteAll(s, classes).0.outputHandlers == s.outputHandlers + CreatedOfKind(classes, HandlerType.Output)
    ensures RouteAll(s, classes).0.data == s.data
    ensures RouteAll(s, classes).0.particleHandlers == s.particleHandlers
    ensures RouteAll(s, classes).0.cellHandlers == s.cellHandlers
    decreases |classes|
  {
    if classes != [] {
      var c := classes[0];
      var t := RouteOne(s, c).0;
      var domainHead := if c.kind == Domain then [CreateHandler(c)] else [];
      var outputHead := if c.kind == HandlerType.Output then [CreateHandler(c)] else [];
      assert !Rejected(c) && RouteOne(s, c).1 == Pass;
      if c.kind == Domain {
        DomainAddedProperties(s, c);
        assert t.domainHandlers == s.domainHandlers + domainHead;
      } else if c.kind == HandlerType.Output {
        OutputAddedProperties(s, c);
        assert t.outputHandlers == s.outputHandlers + outputHead;
      } else {
        assert t == s;
      }
      TailNotRejected(classes);
      RouteAllStates(t, classes[1..]);
      assert CreatedOfKind(classes, Domain) == domainHead + CreatedOfKind(classes[1..], Domain);
      assert CreatedOfKind(classes, HandlerType.Output) == outputHead + CreatedOfKind(classes[1..], HandlerType.Output);
      Associates(s.domainHandlers, domainHead, CreatedOfKind(classes[1..], Domain));
      Associates(s.outputHandlers, outputHead, CreatedOfKind(classes[1..], HandlerType.Output));
    }
  }

  /**
   * Without Cell or Particle classes, routing succeeds and appends exactly the Domain classes'
   * handlers to the domain list and the Output classes' handlers to the output list, in class
   * order; Dummy classes add nothing, so the lists grow by the number of non-Dummy classes.
   * The controller stays valid and its data and per-thread lists are untouched.
   */
  lemma RouteAllWithoutRejection(s: ControllerState, classes: seq<HandlerClass>)
    requires ValidState(s)
    requires forall i :: 0 <= i < |classes| ==> !Rejected(classes[i])
    ensures RouteAll(s, classes).1 == Pass
    ensures ValidState(RouteAll(s, classes).0)
    ensures RouteAll(s, classes).0.domainHandlers == s.domainHandlers + CreatedOfKind(classes, Domain)
    ensures RouteAll(s, classes).0.outputHandlers == s.outputHandlers + CreatedOfKind(classes, HandlerType.Output)
    ensures |CreatedOfKind(classes, Domain)| + |CreatedOfKind(classes, HandlerType.Output)| == NonDummyCount(classes)
    ensures RouteAll(s, classes).0.data == s.data
    ensures RouteAll(s, classes).0.particleHandlers == s.particleHandlers
    ensures RouteAll(s, classes).0.cellHandlers == s.cellHandlers
  {
    RouteAllStates(s, classes);
    CreatedCount(classes);
  }

  /**
   * The first Cell or Particle class throws the controller's exception for its kind, and the
   * classes after it are not added: the final state is the state the earlier classes left.
   */
  lemma RouteAllStopsAtFirstRejection(s: ControllerState, classes: seq<HandlerClass>, k: nat)
    requires k < |classes| && Rejected(classes[k])
    requires forall i :: 0 <= i < k ==> !Rejected(classes[i])
    ensures RouteAll(s, classes).0 == RouteAll(s, classes[..k]).0
    ensures RouteAll(s, classes).1 == RouteOne(s, classes[k]).1
  {
    RouteAllPrefixPasses(s, classes[..k]);
    RouteAllSnoc(s, classes[..k], classes[k]);
    assert classes[..k + 1] == classes[..k] + [classes[k]];
    RouteAllAfterFailure(s, classes[..k + 1], classes[k + 1..]);
    assert classes[..k + 1] + classes[k + 1..] == classes;
  }

  /** A list without Cell or Particle classes routes without throwing. */
  lemma {:induction false} RouteAllPrefixPasses(s: ControllerState, classes: seq<HandlerClass>)
    requires forall i :: 0 <= i < |classes| ==> !Rejected(classes[i])
    ensures RouteAll(s, classes).1 == Pass
    decreases |classes|
  {
    if classes != [] {
      TailNotRejected(classes);
      RouteAllPrefixPasses(RouteOne(s, classes[0]).0, classes[1..]);
    }
  }

  /** A Dummy slot has no effect: removing it from any position changes nothing. */
  lemma {:induction false} DummyHasNoEffect(s: ControllerState, before: seq<HandlerClass>, d: HandlerClass, after: seq<HandlerClass>)
    requires d.kind == Dummy
    ensures RouteAll(s, before + [d] + after) == RouteAll(s, before + after)
    decreases |before|
  {
    if before == [] {
      assert before + [d] + after == [d] + after;
      assert ([d] + after)[1..] == after;
      assert before + after == after;
    } else {
      var r := RouteOne(s, before[0]);
      assert (before + [d] + after)[0] == before[0] && (before + after)[0] == before[0];
      assert (before + [d] + after)[1..] == before[1..] + [d] + after;
      assert (before + after)[1..] == before[1..] + after;
      if r.1.Pass? {
        DummyHasNoEffect(r.0, before[1..], d, after);
      }
    }
  }

  /** `addHandler<HandlerClass>(controller)`: dispatch on the class's kind. */
  method AddHandler(controller: Controller, cls: HandlerClass) returns (o: Outcome<Exceptions.Failure>)
    requires controller.Valid()
    modifies controller
    ensures controller.Valid()
    ensures (controller.State(), o) == RouteOne(old(controller.State()), cls)
  {
    if cls.kind == HandlerType.Output {
      controller.AddOutputHandler(cls);
      o := Pass;
    } else if cls.kind == Domain {
      controller.AddDomainHandler(cls);
      o := Pass;
    } else if cls.kind == HandlerType.Cell {
      o := controller.AddCellHandler(cls);
    } else if cls.kind == Particle {
      o := controller.AddParticleHandler(cls);
    } else {
      o := Pass;
    }
  }

  /**
   * `addHandler<HandlerClassN>` as the N-th of the fixed sequence of calls: when the earlier
   * calls have thrown (`prev` is a failure) it is never reached, so nothing changes; after
   * it, the controller is where routing the first N classes leaves it.
   */
  method AddSlot(controller: Controller, ghost start: ControllerState, classes: seq<HandlerClass>, n: nat,
                 prev: Outcome<Exceptions.Failure>)
    returns (o: Outcome<Exceptions.Failure>)
    requires n < |classes|
    requires RouteAll(start, classes[..n]) == (controller.State(), prev)
    requires controller.Valid()
    modifies controller
    ensures controller.Valid()
    ensures (controller.State(), o) == RouteAll(start, classes[..n + 1])
  {
    assert classes[..n + 1] == classes[..n] + [classes[n]];
    if prev.Fail? {
      o := prev;
      RouteAllAfterFailure(start, classes[..n], [classes[n]]);
    } else {
      o := AddHandler(controller, classes[n]);
      RouteAllSnoc(start, classes[..n], classes[n]);
    }
  }

  /** Five consecutive calls of the fixed sequence, `addHandler<HandlerClass(from + 1)>` onwards. */
  method AddFiveSlots(controller: Controller, ghost start: ControllerState, classes: seq<HandlerClass>, from: nat,
                      prev: Outcome<Exceptions.Failure>)
    returns (o: Outcome<Exceptions.Failure>)
    requires from + 5 <= |classes|
    requires RouteAll(start, classes[..from]) == (controller.State(), prev)
    requires controller.Valid()
    modifies controller
    ensures controller.Valid()
    ensures (controller.State(), o) == RouteAll(start, classes[..from + 5])
  {
    o := AddSlot(controller, start, classes, from, prev);
    o := AddSlot(controller, start, classes, from + 1, o);
    o := AddSlot(controller, start, classes, from + 2, o);
    o := AddSlot(controller, start, classes, from + 3, o);
    o := AddSlot(controller, start, classes, from + 4, o);
  }

  /**
   * The ten calls `addHandler<HandlerClass1>` through `addHandler<HandlerClass10>`, in order;
   * a thrown exception ends the sequence.
   */
  method AddAllSlots(controller: Controller, classes: seq<HandlerClass>) returns (o: Outcome<Exceptions.Failure>)
    requires |classes| == NumSlots
    requires controller.Valid()
    modifies controller
    ensures controller.Valid()
    ensures (controller.State(), o) == RouteAll(old(controller.State()), classes)
  {
    ghost var start := controller.State();
    assert classes[..0] == [];
    o := AddFiveSlots(controller, start, classes, 0, Pass);
    o := AddFiveSlots(controller, start, classes, 5, o);
    assert classes[..10] == classes;
  }

  /** `ModuleImplementation<Controller, HandlerClass1, ..., HandlerClass10>`. */
  class ModuleImplementation {
    /** The module's `getName()`, fixed by the module class. */
    const name: string
    /** The ten template arguments, Dummy-padded. */
    const handlerClasses: seq<HandlerClass>
    var instanceName: string

    constructor(name: string, handlerClasses: seq<HandlerClass>)
      requires |handlerClasses| == NumSlots
      ensures this.name == name && this.handlerClasses == handlerClasses
      ensures instanceName == ""
    {
      this.name := name;
      this.handlerClasses := handlerClasses;
      instanceName := "";
    }

    function GetName(): string {
      name
    }

    function GetInstanceName(): string
      reads this
    {
      instanceName
    }

    /** `setInstanceName(name)`: a later `getInstanceName()` returns `name`. */
    method SetInstanceName(n: string)
      modifies this
      ensures GetInstanceName() == n
    {
      instanceName := n;
    }

    /** `addHandlers(controller)`. */
    method AddHandlers(controller: Controller) returns (o: Outcome<Exceptions.Failure>)
      requires |handlerClasses| == NumSlots
      requires controller.Valid()
      modifies controller
      ensures controller.Valid()
      ensures (controller.State(), o) == RouteAll(old(controller.State()), handlerClasses)
    {
      o := AddAllSlots(controller, handlerClasses);
    }
  }
}
