/** The requests Spawn sends to the server for a chosen team and weapon. */
module SpawnRules {
  import opened Types

  /** `WeaponType::RIFLE_WEAPON`, the first member of the weapon enumeration. */
  const RifleWeapon: int := 0

  /** Outbound requests of the network client. */
  datatype NetIntent =
    | Join(team: int, weapon: int, name: string, kills: int)
    | TeamChange(team: int)
    | WeaponChange(weapon: int)

  /** The menu's team 2 means "spectator", which the protocol calls 255. */
  function SpawnTeam(teamId: int): (team: int)
    ensures teamId == 2 ==> team == SpectatorTeam
    ensures teamId != 2 ==> team == teamId
  {
    if teamId == 2 then SpectatorTeam else teamId
  }

  /**
   * Without a local player on a playing team the client joins; otherwise it asks
   * for a team change and/or a weapon change, only for what actually differs.
   */
  function SpawnIntents(teamId: int, weaponId: int, local: Option<PlayerState>, name: string, kills: int): (r: seq<NetIntent>)
    ensures (local.None? || local.value.team >= 2) <==> (|r| == 1 && r[0].Join?)
    ensures local.None? || local.value.team >= 2 ==>
      r == [Join(SpawnTeam(teamId), if SpawnTeam(teamId) == SpectatorTeam then RifleWeapon else weaponId, name, kills)]
    ensures local.Some? && local.value.team < 2 ==>
      && (forall i :: 0 <= i < |r| ==> !r[i].Join?)
      && (TeamChange(SpawnTeam(teamId)) in r <==> local.value.team != SpawnTeam(teamId))
      && (WeaponChange(weaponId) in r <==> SpawnTeam(teamId) != SpectatorTeam && local.value.weapon != weaponId)
      && |r| <= 2
      && (|r| == 2 ==> r[0].TeamChange? && r[1].WeaponChange?)
    ensures local.Some? && local.value.team < 2 ==>
      forall x :: x in r ==> x == TeamChange(SpawnTeam(teamId)) || x == WeaponChange(weaponId)
  {
    var team := SpawnTeam(teamId);
    if local.None? || local.value.team >= 2 then
      [Join(team, if team == SpectatorTeam then RifleWeapon else weaponId, name, kills)]
    else
      (if local.value.team != team then [TeamChange(team)] else [])
      + (if team != SpectatorTeam && local.value.weapon != weaponId then [WeaponChange(weaponId)] else [])
  }

  /** Asking again for the team and weapon the local player already has sends nothing. */
  lemma SpawnUnchangedSendsNothing(local: PlayerState, name: string, kills: int)
    requires local.team < 2
    ensures SpawnIntents(local.team, local.weapon, Some(local), name, kills) == []
  {
  }
}
