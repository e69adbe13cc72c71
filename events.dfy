/**
 * The event taxonomy (include/Event.h): four event kinds, and one event class per kind
 * holding references to the simulation state it concerns. The simulation state is borrowed,
 * never owned, so it appears here as type parameters.
 */
module Events {

  /** `Event::Type`, in declaration order; `numEvents` follows the last kind. */
  datatype EventType = IterationStart | ParticlePostPush | Cell | Output

  const NumEvents: nat := 4

  /** The integer value of each enumerator. */
  function Ordinal(t: EventType): (n: nat)
    ensures n < NumEvents
  {
    match t
    case IterationStart => 0
    case ParticlePostPush => 1
    case Cell => 2
    case Output => 3
  }

  /** The enumerator with a given integer value. */
  function FromOrdinal(n: nat): (t: EventType)
    requires n < NumEvents
    ensures Ordinal(t) == n
  {
    if n == 0 then IterationStart else if n == 1 then ParticlePostPush else if n == 2 then Cell else Output
  }

  /**
   * The four kinds have distinct values and `numEvents` counts them all: `Ordinal` is a
   * bijection onto 0..3 with inverse `FromOrdinal`.
   */
  lemma OrdinalBijection(t: EventType, n: nat)
    requires n < NumEvents
    ensures FromOrdinal(Ordinal(t)) == t
    ensures Ordinal(FromOrdinal(n)) == n
  {
  }

  /** The four event classes with the references their constructors store. */
  datatype Event<Ensemble, Grid, Particle, CellRef> =
    | IterationStartEvent(ensemble: Ensemble, grid: Grid)
    | ParticlePostPushEvent(particle: Particle, ensemble: Ensemble, grid: Grid)
    | CellEvent(cell: CellRef, grid: Grid)
    | OutputEvent
  {
    /** `getType()`; for the particle event the source names `PostParticlePush` (see README). */
    function GetType(): (t: EventType)
      ensures t == IterationStart <==> IterationStartEvent?
      ensures t == ParticlePostPush <==> ParticlePostPushEvent?
      ensures t == EventType.Cell <==> CellEvent?
      ensures t == EventType.Output <==> OutputEvent?
    {
      match this
      case IterationStartEvent(_, _) => IterationStart
      case ParticlePostPushEvent(_, _, _) => ParticlePostPush
      case CellEvent(_, _) => EventType.Cell
      case OutputEvent => EventType.Output
    }
  }
}
