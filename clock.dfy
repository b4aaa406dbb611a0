// The game clock of components/Game.tsx:160-206: every tick adds ten
// minutes; at END_TIME the player is forced to sleep, the clock returns to
// START_TIME on the next day, and after day 28 a new season begins. The
// player and scene reset and the autosave that go with the rollover are
// performed by the World (world.dfy).
module Clock {
  import opened Util
  import opened Records
  import opened Catalog

  /** Minutes added by one tick (TIME_TICK_INTERVAL of real time). */
  const TICK_MINUTES: int := 10
  const DAYS_PER_SEASON: int := 28
  const SEASON_COUNT: int := 4

  /** The states the clock can be in: a day of a season, between waking and the forced sleep. */
  predicate ClockValid(gs: GameState)
  {
    && 1 <= gs.day <= DAYS_PER_SEASON
    && START_TIME <= gs.time < END_TIME
    && 0 <= gs.seasonIdx < SEASON_COUNT
  }

  /** The new clock state, whether the player was forced to sleep, and whether a season began. */
  datatype Tick = Tick(state: GameState, slept: bool, newSeason: bool)

  function ClockTick(gs: GameState): (r: Tick)
    ensures r.slept <==> gs.time + TICK_MINUTES >= END_TIME
    ensures r.newSeason <==> r.slept && gs.day + 1 > DAYS_PER_SEASON
    ensures r.state.weather == gs.weather && r.state.isPaused == gs.isPaused
    ensures !r.slept ==> r.state == gs.(time := gs.time + TICK_MINUTES)
    ensures r.slept ==> r.state.time == START_TIME
    ensures r.slept && !r.newSeason ==> r.state.day == gs.day + 1 && r.state.seasonIdx == gs.seasonIdx
    ensures r.newSeason ==> r.state.day == 1 && r.state.seasonIdx == JsRem(gs.seasonIdx + 1, SEASON_COUNT)
  {
    var time := gs.time + TICK_MINUTES;
    if time >= END_TIME then
      var day := gs.day + 1;
      if day > DAYS_PER_SEASON then
        Tick(gs.(time := START_TIME, day := 1, seasonIdx := JsRem(gs.seasonIdx + 1, SEASON_COUNT)), true, true)
      else
        Tick(gs.(time := START_TIME, day := day), true, false)
    else
      Tick(gs.(time := time), false, false)
  }

  /** Days elapsed since the first day of Spring, modulo a year of four seasons. */
  function DayOfYear(gs: GameState): int
  {
    gs.seasonIdx * DAYS_PER_SEASON + (gs.day - 1)
  }

  /** A tick keeps the clock valid, and the calendar moves on by exactly one day when the player sleeps. */
  lemma TickAdvancesCalendar(gs: GameState)
    requires ClockValid(gs)
    ensures ClockValid(ClockTick(gs).state)
    ensures var r := ClockTick(gs);
            DayOfYear(r.state) == if r.slept then (DayOfYear(gs) + 1) % (SEASON_COUNT * DAYS_PER_SEASON)
                                  else DayOfYear(gs)
  {
  }

  /** `n` ticks in a row: the final state and the number of forced sleeps. */
  function Run(gs: GameState, n: nat): (r: (GameState, nat))
    ensures r.1 <= n
  {
    if n == 0 then (gs, 0)
    else
      var (s, k) := Run(gs, n - 1);
      var t := ClockTick(s);
      (t.state, k + if t.slept then 1 else 0)
  }

  /** Ticks that stay short of END_TIME only advance the time. */
  lemma {:induction false} QuietRun(gs: GameState, n: nat)
    requires gs.time + TICK_MINUTES * n < END_TIME
    ensures Run(gs, n) == (gs.(time := gs.time + TICK_MINUTES * n), 0)
  {
    if n > 0 {
      QuietRun(gs, n - 1);
    }
  }

  /**
   * From waking at START_TIME, 124 ticks bring exactly one forced sleep,
   * landing at START_TIME of the next day.
   */
  lemma OneSleepPerDay(gs: GameState)
    requires ClockValid(gs) && gs.time == START_TIME
    ensures Run(gs, 124).1 == 1
    ensures Run(gs, 124).0.time == START_TIME
    ensures DayOfYear(Run(gs, 124).0) == (DayOfYear(gs) + 1) % (SEASON_COUNT * DAYS_PER_SEASON)
  {
    QuietRun(gs, 123);
    TickAdvancesCalendar(gs.(time := START_TIME + TICK_MINUTES * 123));
  }
}
