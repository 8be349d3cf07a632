/**
 * How long each kind of response is kept (endpoints/bootstrap.go:26-32, endpoints/live.go:18), and the
 * sections of a bootstrap response in the order they are warmed (endpoints/bootstrap.go:344-347).
 */
module CachePolicy {
  import opened MachineWords

  const TEAMS_TTL: int := 24 * HOUR
  const PLAYERS_TTL: int := 10 * MINUTE
  const FIXTURES_TTL: int := 10 * MINUTE
  const GAMEWEEKS_TTL: int := 3 * MINUTE
  const SETTINGS_TTL: int := 24 * HOUR
  const MANAGER_TTL: int := 5 * MINUTE
  const LEAGUE_TTL: int := 5 * MINUTE
  const EVENT_LIVE_TTL: int := 30 * SECOND

  datatype Section = Teams | Players | Gameweeks | Settings

  const WARMING_ORDER: seq<Section> := [Teams, Players, Gameweeks, Settings]

  function SectionTtl(section: Section): int {
    match section
    case Teams => TEAMS_TTL
    case Players => PLAYERS_TTL
    case Gameweeks => GAMEWEEKS_TTL
    case Settings => SETTINGS_TTL
  }

  /** Only the first pages of a league are cached. */
  const MAX_PAGE_CACHE: int := 3
}
