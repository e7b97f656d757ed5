/** A state-holder's actions, given explicitly as state transformers instead of
    being found by reflection. */
module Actions {
  import opened Values

  /** The value a returned promise fulfils with. */
  datatype Settlement = Fulfils(v: Val) | FulfilsNoUp(payload: Val)

  /** What calling an action's original body produces. */
  datatype Outcome =
    | Returns(v: Val)
      /** the cancel sentinel built by `noUp(payload)` / `cancelFun(payload)` */
    | ReturnsNoUp(payload: Val)
      /** a promise: `rest` is what the body still does to the state before the
          promise fulfils with `settles` */
    | ReturnsPromise(rest: Val -> Val, settles: Settlement)
    | Throws

  /** The state an action's body leaves behind, and its outcome. */
  datatype Step = Step(state: Val, outcome: Outcome)

  /** An action's body, from the holder's current state and the call's argument. */
  type Action = (Val, Val) -> Step
}
