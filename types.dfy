/** Value types shared by the client model: player slots, network status and alert kinds. */
module Types {

  datatype Option<T> = None | Some(value: T)

  datatype Result<T> = Ok(value: T) | Err(message: string)

  /** Team id the join request uses for "spectator"; ids 0 and 1 are the two playing teams. */
  const SpectatorTeam: int := 255

  /** What the client can see of one player: the pieces of `Player` the core reads. */
  datatype PlayerState = PlayerState(
    name: string,
    team: int,
    alive: bool,
    hasValidFront: bool,   // GetFront().GetPoweredLength() >= .01f, kept abstract
    weapon: int)

  /** A world player slot: empty, or holding a player. */
  type Slot = Option<PlayerState>

  /** Status reported by the network client. */
  datatype NetStatus = NotConnected | Connecting | Connected

  /** Severity of an on-screen alert. */
  datatype AlertType = Notice | Warning | Error
}
