/** The scoring constants of the game's configuration and the default player name. */
module Config {

  /** Points for every correct answer (`POINTS_PER_CORRECT`). */
  const PointsPerCorrect: int := 10

  /** Extra points for an answer given on an established streak (`BONUS_POINTS_STREAK`). */
  const BonusPointsStreak: int := 5

  /** The streak, counted before the answer, from which the bonus is paid. */
  const StreakThreshold: int := 3

  /** The name a new game gives its player. */
  const DefaultPlayerName: string := "Алексей"
}
