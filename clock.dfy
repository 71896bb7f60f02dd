// The elapsed-time part of the scoreboard: milliseconds since the start of
// the session, shown as minutes and seconds.

module Clock {

  /** JavaScript's % by 60: the remainder takes the sign of the dividend,
      where Dafny's % is never negative. */
  function Rem60(a: int): (r: int)
    ensures a >= 0 ==> 0 <= r < 60
    ensures a < 0 ==> -60 < r <= 0
    ensures (a - r) % 60 == 0
  {
    if a >= 0 then a % 60 else -((-a) % 60)
  }

  /** Math.floor(elapsedMs / 1000). */
  function ElapsedSeconds(elapsedMs: int): (s: int)
    ensures s * 1000 <= elapsedMs < s * 1000 + 1000
  {
    elapsedMs / 1000
  }

  /** What the scoreboard shows: minutes and seconds before padding, score, lives. */
  datatype Display = Display(minutes: int, seconds: int, score: int, lives: int)

  function Scoreboard(elapsedMs: int, score: int, lives: int): (d: Display)
    ensures d.score == score && d.lives == lives
    ensures -60 < d.seconds < 60
    ensures (ElapsedSeconds(elapsedMs) - d.seconds) % 60 == 0
  {
    var elapsedSeconds := ElapsedSeconds(elapsedMs);
    Display(elapsedSeconds / 60, Rem60(elapsedSeconds), score, lives)
  }

  /** From the start time on, the display splits the whole seconds elapsed
      into minutes and a seconds field below 60. */
  lemma ScoreboardSplitsSeconds(elapsedMs: int, score: int, lives: int)
    requires elapsedMs >= 0
    ensures var d := Scoreboard(elapsedMs, score, lives);
      d.minutes * 60 + d.seconds == elapsedMs / 1000 &&
      0 <= d.seconds < 60 && d.minutes >= 0 &&
      d.score == score && d.lives == lives
  {
  }

  /** Before the start time (a clock set back) the minutes are floored but the
      seconds are truncated, so the display is a minute short unless the
      seconds are a whole minute. */
  lemma ScoreboardBeforeStart(elapsedMs: int, score: int, lives: int)
    requires elapsedMs < 0
    ensures var d := Scoreboard(elapsedMs, score, lives);
      d.minutes < 0 && -60 < d.seconds <= 0 &&
      d.minutes * 60 + d.seconds ==
        if (elapsedMs / 1000) % 60 == 0 then elapsedMs / 1000 else elapsedMs / 1000 - 60
  {
  }
}
