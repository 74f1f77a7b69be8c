/** The state a new game starts from (`initialState.ts`). */
module InitialState {
  import opened SimTypes

  /** `createInitialGameState`: no time has passed, nobody is in the store,
      the floor is spotless and reputation is three stars. */
  function CreateInitialGameState(): (s: GameState)
    ensures s.tick == 0 && s.gameTime == 0
    ensures s.customers == [] && s.employees == []
    ensures s.cleanliness == 100.0 && s.reputation == 3.0
  {
    GameState(0, 0, [], [], 100.0, 3.0)
  }
}
