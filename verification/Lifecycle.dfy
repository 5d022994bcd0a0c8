/** The lifecycle of an entity (crates/persistent-entity/src/lifecycle.rs). */
module Lifecycle {
  import opened Entities

  datatype EntityState = Recovering | Active | Passivating | Passivated | Failed

  /** The transitions the state machine accepts. */
  predicate Legal(from: EntityState, to: EntityState) {
    || (from == Recovering && to == Active)
    || (from == Active && to == Passivating)
    || (from == Passivating && to == Passivated)
    || (from == Passivated && to == Active)
    || to == Failed
  }

  class LifecycleStateMachine {
    var currentState: EntityState

    constructor ()
      ensures currentState == Recovering
    {
      currentState := Recovering;
    }

    /** Refuses an illegal transition and stays where it is. */
    method TransitionTo(state: EntityState) returns (r: Result<(), ()>)
      modifies this
      ensures r.Ok? <==> Legal(old(currentState), state)
      ensures currentState == if r.Ok? then state else old(currentState)
    {
      match (currentState, state)
      case (Recovering, Active) => currentState := state; r := Ok(());
      case (Active, Passivating) => currentState := state; r := Ok(());
      case (Passivating, Passivated) => currentState := state; r := Ok(());
      case (Passivated, Active) => currentState := state; r := Ok(());
      case (_, Failed) => currentState := state; r := Ok(());
      case _ => r := Err(());
    }
  }

  /** Nine of the twenty-five pairs of states are transitions. */
  lemma LegalAre(from: EntityState, to: EntityState)
    ensures Legal(from, to) <==> (from, to) in {
      (Recovering, Active), (Active, Passivating), (Passivating, Passivated), (Passivated, Active),
      (Recovering, Failed), (Active, Failed), (Passivating, Failed), (Passivated, Failed), (Failed, Failed)}
  {
  }

  /** Nothing but a failure leaves `Failed`, and only a new activation leaves `Passivated`. */
  lemma TerminalStates(from: EntityState, to: EntityState)
    requires Legal(from, to)
    ensures from == Failed ==> to == Failed
    ensures from == Passivated ==> to == Active || to == Failed
    ensures to == Recovering ==> false
  {
  }
}
