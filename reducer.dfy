/**
 * The application state reducer (`src/app/reducer.js`): two setters over a
 * record of `username` and `color`, and an error for every other action.
 */
module AppReducer {
  import opened Js

  datatype AppState = AppState(username: Value, color: Value)

  /** An action object `{ type, value }`. */
  datatype Action = Action(kind: string, value: Value)

  /** The reducer either returns a new state or throws `new Error()`. */
  datatype Outcome = Returned(state: AppState) | Threw

  /** `initialState`: both fields `null`. */
  function InitialState(): (s: AppState)
    ensures s.username == Null && s.color == Null
  {
    AppState(username := Null, color := Null)
  }

  /**
   * `reducer(state, action)`: `setUsername` replaces only `username`,
   * `setColor` replaces only `color`, every other type throws.
   */
  function Reduce(state: AppState, action: Action): (r: Outcome)
    ensures r.Returned? <==> action.kind == "setUsername" || action.kind == "setColor"
    ensures action.kind == "setUsername" ==>
      r.Returned? && r.state.username == action.value && r.state.color == state.color
    ensures action.kind == "setColor" ==>
      r.Returned? && r.state.color == action.value && r.state.username == state.username
  {
    match action.kind
    case "setUsername" => Returned(state.(username := action.value))
    case "setColor" => Returned(state.(color := action.value))
    case _ => Threw
  }

  /** Dispatching the same setter twice gives the state that dispatching it once gives. */
  lemma ReduceIdempotent(state: AppState, action: Action)
    requires Reduce(state, action).Returned?
    ensures Reduce(Reduce(state, action).state, action) == Reduce(state, action)
  {
  }

  /** The two setters touch different fields, so their order does not matter. */
  lemma SettersCommute(state: AppState, name: Value, color: Value)
    ensures var a := Reduce(state, Action("setUsername", name)).state;
            var b := Reduce(state, Action("setColor", color)).state;
            Reduce(a, Action("setColor", color)) == Reduce(b, Action("setUsername", name))
  {
  }
}
