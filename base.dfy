/** Types shared by every part of the model: optional values, and the opaque
    identities the game engine hands out (players, characters, world positions). */
module Base {

  /** An engine pointer that may be null. */
  datatype Option<T> = None | Some(value: T)

  /** A player's replicated state (the engine's player-state object), by identity. */
  type PlayerId = nat

  /** A character (pawn) in the world, by identity. */
  type CharId = nat

  /** A world position. Only the distance oracle ever looks inside it. */
  datatype Pos = Pos(x: real, y: real, z: real)

  /** Team number as the engine reports it: 0..254 for a team, 255 for none. */
  const NoTeam: nat := 255
}
