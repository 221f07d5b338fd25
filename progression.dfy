/** Level and drop interval derived from the number of cleared lines (src/App.tsx). */
module Progression {

  /** Drop interval at level 1, in milliseconds. */
  const InitialSpeed := 1000

  /** One level per ten cleared lines, starting at level 1. */
  function LevelFor(lines: nat): (level: nat)
    ensures level >= 1
    ensures 10 * (level - 1) <= lines < 10 * level
  {
    lines / 10 + 1
  }

  /** 100 ms faster per level above 1, never below 100 ms. */
  function DropTime(level: int): (ms: int)
    ensures ms >= 100 && ms >= InitialSpeed - (level - 1) * 100
    ensures ms == 100 || ms == InitialSpeed - (level - 1) * 100
    ensures level >= 1 ==> ms <= InitialSpeed
  {
    if InitialSpeed - (level - 1) * 100 > 100 then InitialSpeed - (level - 1) * 100 else 100
  }

  /** Points for one lock that cleared `cleared` rows at `level`: 100 per row per level, plus a
      flat 10 for the lock itself. */
  function LockPoints(cleared: nat, level: nat): (points: nat)
    ensures points >= 10
    ensures points == 10 <==> cleared == 0 || level == 0
  {
    cleared * 100 * level + 10
  }

  /** More cleared lines never lower the level, and never slow the drop down. */
  lemma MoreLinesFaster(a: nat, b: nat)
    requires a <= b
    ensures LevelFor(a) <= LevelFor(b)
    ensures DropTime(LevelFor(b)) <= DropTime(LevelFor(a))
  {
  }

  /** 100 cleared lines: level 11, interval at its 100 ms floor. */
  lemma HundredLines()
    ensures LevelFor(100) == 11 && DropTime(LevelFor(100)) == 100
    ensures LevelFor(9) == 1 && LevelFor(10) == 2
  {
  }
}
