// Talking to NPCs (components/Game.tsx:393-414): the NPC in front of the
// player, the dialogue line picked for today's weather, and the affection
// gained at most once a day and capped at 250.
module Social {
  import opened Util
  import opened Records
  import opened Catalog
  import opened Clock

  const AFFECTION_STEP: int := 10
  const MAX_AFFECTION: int := 250

  /** Some NPC stands at (x, y) of the scene. */
  predicate NpcAt(npcs: seq<Npc>, scene: Scene, x: int, y: int)
  {
    exists i :: 0 <= i < |npcs| && At(npcs[i], scene, x, y)
  }

  predicate At(n: Npc, scene: Scene, x: int, y: int)
  {
    n.scene == scene && n.x == x && n.y == y
  }

  /** `npcs.find(n => n.scene === scene && n.x === x && n.y === y)`, as an index, or -1. */
  function FirstNpcAt(npcs: seq<Npc>, scene: Scene, x: int, y: int): (r: int)
    ensures -1 <= r < |npcs|
    ensures r >= 0 ==> At(npcs[r], scene, x, y)
    ensures forall j :: 0 <= j < |npcs| && (r == -1 || j < r) ==> !At(npcs[j], scene, x, y)
    ensures r == -1 <==> !NpcAt(npcs, scene, x, y)
  {
    if npcs == [] then -1
    else if At(npcs[0], scene, x, y) then 0
    else
      var r := FirstNpcAt(npcs[1..], scene, x, y);
      assert forall j :: 0 < j < |npcs| ==> npcs[j] == npcs[1..][j - 1];
      if r == -1 then -1 else r + 1
  }

  /** `n.affection || 0` */
  function Affection(n: Npc): int
  {
    if n.affection.Some? then n.affection.value else 0
  }

  /**
   * `!n.lastTalked || n.lastTalked < day`, as written: the NPC was last
   * befriended on an earlier day number. Day numbers restart at 1 every
   * season, so this test is wrong after a season rollover
   * (RolloverLocksAffection); the model uses CanGainAffection instead.
   */
  predicate CanGainAffectionAsWritten(n: Npc, day: int)
  {
    !Truthy(n.lastTalked) || n.lastTalked.value < day
  }

  /**
   * The date `lastTalked` records: the day of the year counted from 1, so
   * that it is truthy and tells the same day number of two seasons apart.
   */
  function Today(gs: GameState): (stamp: int)
    requires ClockValid(gs)
    ensures 1 <= stamp <= SEASON_COUNT * DAYS_PER_SEASON
    ensures stamp == DayOfYear(gs) + 1
  {
    DayOfYear(gs) + 1
  }

  /** Not yet befriended today: `lastTalked` holds no date, or another date than today's. */
  predicate CanGainAffection(n: Npc, gs: GameState)
    requires ClockValid(gs)
  {
    !Truthy(n.lastTalked) || n.lastTalked.value != Today(gs)
  }

  /** The NPC after a conversation that earns affection: +10, at most 250, talked to on `stamp`. */
  function Befriended(n: Npc, stamp: int): (r: Npc)
    ensures r.(affection := n.affection, lastTalked := n.lastTalked) == n
    ensures r.lastTalked == Some(stamp) && r.affection.Some?
    ensures Affection(n) <= MAX_AFFECTION - AFFECTION_STEP ==> Affection(r) == Affection(n) + AFFECTION_STEP
    ensures Affection(n) > MAX_AFFECTION - AFFECTION_STEP ==> Affection(r) == MAX_AFFECTION
  {
    n.(affection := Some(Min(MAX_AFFECTION, Affection(n) + AFFECTION_STEP)), lastTalked := Some(stamp))
  }

  /** Affection stays within 0..250. */
  predicate AffectionOk(n: Npc)
  {
    0 <= Affection(n) <= MAX_AFFECTION
  }

  /**
   * As written, an NPC befriended on day `day` earns nothing on days
   * 1..day of every later season, and one befriended on day 28 never
   * earns affection again, because no valid clock has a day above 28.
   */
  lemma RolloverLocksAffection(n: Npc, day: int, gs: GameState)
    requires ClockValid(gs)
    ensures !CanGainAffectionAsWritten(Befriended(n, day), gs.day) <==> gs.day <= day
    ensures !CanGainAffectionAsWritten(Befriended(n, DAYS_PER_SEASON), gs.day)
  {
  }

  /** The lock in one step: befriended on day 28, the NPC earns nothing on the first day of the next season. */
  lemma AsWrittenRefusesAfterRollover(n: Npc, gs: GameState)
    requires ClockValid(gs) && gs.day == DAYS_PER_SEASON && ClockTick(gs).slept
    ensures ClockTick(gs).newSeason && ClockTick(gs).state.day == 1
    ensures !CanGainAffectionAsWritten(Befriended(n, gs.day), ClockTick(gs).state.day)
  {
  }

  /**
   * With the date stamp, a befriended NPC earns nothing more that day, and
   * earns again exactly on the other days of the year.
   */
  lemma OncePerDay(n: Npc, gs: GameState, later: GameState)
    requires ClockValid(gs) && ClockValid(later)
    ensures !CanGainAffection(Befriended(n, Today(gs)), gs)
    ensures CanGainAffection(Befriended(n, Today(gs)), later) <==> DayOfYear(later) != DayOfYear(gs)
  {
  }

  /** The forced sleep that ends the day, the season's last day included, lets the NPC earn affection again. */
  lemma EarnsAgainNextDay(n: Npc, gs: GameState)
    requires ClockValid(gs) && ClockTick(gs).slept
    ensures ClockValid(ClockTick(gs).state)
    ensures CanGainAffection(Befriended(n, Today(gs)), ClockTick(gs).state)
  {
    TickAdvancesCalendar(gs);
    OncePerDay(n, gs, ClockTick(gs).state);
  }

  /** The NPC list after talking to the NPC with id `id`: every NPC with that id is befriended. */
  function TalkedTo(npcs: seq<Npc>, id: string, stamp: int): (r: seq<Npc>)
    ensures |r| == |npcs|
    ensures forall i :: 0 <= i < |npcs| ==> r[i] == if npcs[i].id == id then Befriended(npcs[i], stamp) else npcs[i]
  {
    seq(|npcs|, i requires 0 <= i < |npcs| => if npcs[i].id == id then Befriended(npcs[i], stamp) else npcs[i])
  }

  /** Talking keeps every NPC's affection within range and moves nobody. */
  lemma TalkKeepsAffectionOk(npcs: seq<Npc>, id: string, stamp: int)
    requires forall i :: 0 <= i < |npcs| ==> AffectionOk(npcs[i])
    ensures forall i :: 0 <= i < |npcs| ==> AffectionOk(TalkedTo(npcs, id, stamp)[i])
    ensures forall i :: 0 <= i < |npcs| ==>
              TalkedTo(npcs, id, stamp)[i].(affection := npcs[i].affection, lastTalked := npcs[i].lastTalked) == npcs[i]
  {
  }

  /**
   * `NPC_DIALOGUES[variant][weather] || NPC_DIALOGUES[variant]['SUNNY']`:
   * every weather has its own list, so the fallback to the sunny lines is
   * never taken.
   */
  function Lines(variant: Variant, weather: Weather): (r: seq<string>)
    ensures |r| > 0
  {
    NpcDialogues(variant, WeatherKey(weather))
  }

  /** `lines[Math.floor(Math.random() * lines.length)]` */
  function PickLine(lines: seq<string>, roll: real): (r: string)
    requires |lines| > 0 && 0.0 <= roll < 1.0
    ensures r in lines
  {
    var n := |lines| as real;
    assert 0.0 <= roll * n < n by {
      assert roll * n < 1.0 * n;
    }
    lines[(roll * n).Floor]
  }
}
