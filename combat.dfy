// Monsters and the player's health: the monster AI step of
// components/Game.tsx:226-281 (a 30% chance per 800 ms to act, a melee hit
// when adjacent, a one-tile chase within five tiles) and the sword strike
// of components/Game.tsx:379-391. Distances are compared squared: for
// integer offsets `sqrt(d2) < 1.1` is `d2 <= 1` and `sqrt(d2) < 5` is
// `d2 < 25`.
module Combat {
  import opened Util
  import opened Records
  import opened Catalog
  import opened Feedback

  /** Where a fainted player wakes up: the farm, outside the house. */
  const SPAWN_X: int := 6
  const SPAWN_Y: int := 4
  /** A faint costs a tenth of the player's money, at most this much. */
  const MAX_FAINT_LOSS: int := 1000

  function SqDist(x1: int, y1: int, x2: int, y2: int): int
  {
    (x1 - x2) * (x1 - x2) + (y1 - y2) * (y1 - y2)
  }

  /** The monster acts this tick: it is in the player's scene and its roll is at most 0.3. */
  predicate Acts(m: Monster, scene: Scene, roll: real)
  {
    m.scene == scene && !(roll > 0.3)
  }

  /** The monster attacks: it acts and stands within melee distance of the player. */
  predicate Attacks(m: Monster, scene: Scene, px: int, py: int, roll: real)
  {
    Acts(m, scene, roll) && SqDist(px, py, m.x, m.y) <= 1
  }

  /** The tile a chasing monster steps to: one step toward the player on each axis. */
  function ChaseTarget(m: Monster, px: int, py: int): (int, int)
  {
    (m.x + Sign(px - m.x), m.y + Sign(py - m.y))
  }

  /** The monster moves this tick: it acts, is out of melee range but within five tiles, and the step stays on the grid. */
  predicate Chases(m: Monster, scene: Scene, px: int, py: int, roll: real)
  {
    var d2 := SqDist(px, py, m.x, m.y);
    Acts(m, scene, roll) && 1 < d2 < 25 && InBounds(ChaseTarget(m, px, py).0, ChaseTarget(m, px, py).1)
  }

  /** Stepping one unit toward zero shrinks a nonzero offset's square. */
  lemma StepShrinks(d: int)
    ensures (d - Sign(d)) * (d - Sign(d)) <= d * d
    ensures d != 0 ==> (d - Sign(d)) * (d - Sign(d)) < d * d
  {
  }

  /**
   * A monster after the AI step: a monster that chases moves one tile
   * (per axis) toward the player and ends strictly closer; every other
   * monster, attackers included, stays where it is.
   */
  function Stepped(m: Monster, scene: Scene, px: int, py: int, roll: real): (r: Monster)
    ensures r.(x := m.x, y := m.y) == m
    ensures r != m <==> Chases(m, scene, px, py, roll)
    ensures r != m ==> InBounds(r.x, r.y) && Abs(r.x - m.x) <= 1 && Abs(r.y - m.y) <= 1
    ensures r != m ==> SqDist(px, py, r.x, r.y) < SqDist(px, py, m.x, m.y)
  {
    if !Acts(m, scene, roll) then m
    else
      var d2 := SqDist(px, py, m.x, m.y);
      if d2 <= 1 then m
      else if d2 < 25 then
        var (mx, my) := ChaseTarget(m, px, py);
        if InBounds(mx, my) then
          StepShrinks(px - m.x);
          StepShrinks(py - m.y);
          assert px - mx == (px - m.x) - Sign(px - m.x);
          assert py - my == (py - m.y) - Sign(py - m.y);
          m.(x := mx, y := my)
        else m
      else m
  }

  /** `prev.map(...)`: every monster after the AI step, monster `i` using roll `i`. */
  function StepAll(ms: seq<Monster>, scene: Scene, px: int, py: int, rolls: seq<real>): (r: seq<Monster>)
    requires |rolls| == |ms|
    ensures |r| == |ms|
    ensures forall i :: 0 <= i < |ms| ==> r[i] == Stepped(ms[i], scene, px, py, rolls[i])
  {
    seq(|ms|, i requires 0 <= i < |ms| => Stepped(ms[i], scene, px, py, rolls[i]))
  }

  /** The damages of the monsters that attack this tick, in monster order. */
  function AttackDamages(ms: seq<Monster>, rolls: seq<real>, scene: Scene, px: int, py: int): (r: seq<int>)
    requires |rolls| == |ms|
    ensures |r| <= |ms|
    ensures (forall i :: 0 <= i < |ms| ==> ms[i].damage >= 0) ==> forall k :: 0 <= k < |r| ==> r[k] >= 0
    ensures (forall i :: 0 <= i < |ms| ==> !Attacks(ms[i], scene, px, py, rolls[i])) ==> r == []
  {
    if ms == [] then []
    else
      var rest := AttackDamages(ms[1..], rolls[1..], scene, px, py);
      assert forall i :: 0 <= i < |ms[1..]| ==> ms[1..][i] == ms[i + 1] && rolls[1..][i] == rolls[i + 1];
      if Attacks(ms[0], scene, px, py, rolls[0]) then [ms[0].damage] + rest else rest
  }

  /** The outcome of one hit on the player, and the gold lost when the hit knocks the player out. */
  datatype Hit = Hit(player: Player, hurt: bool, lost: Option<int>)

  /**
   * A melee hit of `damage`: hp falls to max(0, hp - damage); at 0 the
   * player faints, losing min(1000, floor(money / 10)) gold (never going
   * below 0) and waking at the farm spawn with full hp and energy.
   */
  function HitPlayer(p: Player, damage: int): (r: Hit)
    ensures r.hurt <==> Max(0, p.hp - damage) < p.hp
    ensures r.lost.Some? <==> p.hp - damage <= 0
    ensures r.lost.None? ==> r.player == p.(hp := p.hp - damage)
    ensures r.lost.Some? ==>
              && r.lost.value == Min(MAX_FAINT_LOSS, p.money / 10)
              && r.player == p.(hp := p.maxHp, energy := p.maxEnergy, money := Max(0, p.money - r.lost.value),
                                x := SPAWN_X, y := SPAWN_Y)
  {
    var newHp := Max(0, p.hp - damage);
    var hurt := newHp < p.hp;
    if newHp <= 0 then
      var lost := Min(MAX_FAINT_LOSS, p.money / 10);   // Math.floor(money * 0.1)
      Hit(p.(hp := p.maxHp, energy := p.maxEnergy, money := Max(0, p.money - lost), x := SPAWN_X, y := SPAWN_Y),
          hurt, Some(lost))
    else
      Hit(p.(hp := newHp), hurt, None)
  }

  /** The player's vitals the game keeps within range. */
  predicate VitalsOk(p: Player)
  {
    && 0 < p.hp <= p.maxHp
    && 0 <= p.energy <= p.maxEnergy
    && p.money >= 0
    && InBounds(p.x, p.y)
  }

  /** The faint penalty never takes more than the player has, nor more than 1000 g. */
  lemma FaintPenaltyBounded(p: Player, damage: int)
    requires p.money >= 0 && p.hp - damage <= 0
    ensures var r := HitPlayer(p, damage);
            0 <= r.lost.value <= MAX_FAINT_LOSS && r.lost.value <= p.money
            && r.player.money == p.money - r.lost.value
  {
  }

  /** With 50 gold (the starting purse), a faint costs 5. */
  lemma FaintFromStartingPurse(p: Player)
    requires p.money == 50 && p.hp == 5
    ensures HitPlayer(p, 5).lost == Some(5) && HitPlayer(p, 5).player.money == 45
  {
  }

  /** A non-negative hit keeps the player's vitals in range. */
  lemma HitKeepsVitals(p: Player, damage: int)
    requires VitalsOk(p) && damage >= 0
    ensures VitalsOk(HitPlayer(p, damage).player)
    ensures HitPlayer(p, damage).player.money <= p.money
  {
  }

  /** All the hits of one tick, applied in order to the player. */
  datatype Hits = Hits(player: Player, texts: seq<FloatingText>, lastLost: Option<int>)

  /**
   * The queued setPlayer updates of one AI tick, in order. Each hit that
   * hurts spawns a red text over the player as it stands at that moment;
   * `lastLost` is the gold lost in the last faint, whose message is the one
   * left showing.
   */
  function ApplyHits(p: Player, damages: seq<int>, texts: seq<FloatingText>): (r: Hits)
    ensures |r.texts| >= |texts| && r.texts[..|texts|] == texts
    ensures damages == [] ==> r == Hits(p, texts, None)
    ensures r.player.(hp := p.hp, energy := p.energy, money := p.money, x := p.x, y := p.y) == p
    decreases |damages|
  {
    if damages == [] then Hits(p, texts, None)
    else
      var h := HitPlayer(p, damages[0]);
      var texts' := if h.hurt then Spawn(texts, p.x, p.y, DamageTaken(damages[0])) else texts;
      var rest := ApplyHits(h.player, damages[1..], texts');
      assert rest.texts[..|texts|] == texts' [..|texts|];
      Hits(rest.player, rest.texts, if rest.lastLost.Some? then rest.lastLost else h.lost)
  }

  /** However many monsters hit, the player's vitals stay in range and money never grows. */
  lemma {:induction false} HitsKeepVitals(p: Player, damages: seq<int>, texts: seq<FloatingText>)
    requires VitalsOk(p)
    requires forall k :: 0 <= k < |damages| ==> damages[k] >= 0
    ensures VitalsOk(ApplyHits(p, damages, texts).player)
    ensures ApplyHits(p, damages, texts).player.money <= p.money
    ensures ApplyHits(p, damages, texts).player.maxHp == p.maxHp
    decreases |damages|
  {
    if damages != [] {
      var h := HitPlayer(p, damages[0]);
      HitKeepsVitals(p, damages[0]);
      var texts' := if h.hurt then Spawn(texts, p.x, p.y, DamageTaken(damages[0])) else texts;
      HitsKeepVitals(h.player, damages[1..], texts');
    }
  }

  /** A hit that faints the player is reported: some faint happened exactly when `lastLost` is set. */
  lemma {:induction false} FaintIsReported(p: Player, damages: seq<int>, texts: seq<FloatingText>)
    requires |damages| >= 1 && p.hp - damages[0] <= 0
    ensures ApplyHits(p, damages, texts).lastLost.Some?
  {
  }

  predicate MonsterAt(m: Monster, scene: Scene, x: int, y: int)
  {
    m.scene == scene && m.x == x && m.y == y
  }

  /** `monsters.find(m => m.scene === scene && m.x === x && m.y === y)`, as an index, or -1. */
  function FirstMonsterAt(ms: seq<Monster>, scene: Scene, x: int, y: int): (r: int)
    ensures -1 <= r < |ms|
    ensures r >= 0 ==> MonsterAt(ms[r], scene, x, y)
    ensures forall j :: 0 <= j < |ms| && (r == -1 || j < r) ==> !MonsterAt(ms[j], scene, x, y)
  {
    if ms == [] then -1
    else if MonsterAt(ms[0], scene, x, y) then 0
    else
      var r := FirstMonsterAt(ms[1..], scene, x, y);
      assert forall j :: 0 < j < |ms| ==> ms[j] == ms[1..][j - 1];
      if r == -1 then -1 else r + 1
  }

  /** The sword's damage, `Math.floor(Math.random() * 3) + 2`. */
  function SwordDamage(roll: real): (d: int)
    requires 0.0 <= roll < 1.0
    ensures 2 <= d <= 4
  {
    (roll * 3.0).Floor + 2
  }

  /** The sword's damage lies within the Rusty Sword's listed range. */
  lemma SwordDamageInRange(roll: real)
    requires 0.0 <= roll < 1.0
    ensures Def(105).minDmg <= SwordDamage(roll) <= Def(105).maxDmg
  {
  }

  /** A struck monster: `hp - damage` if its id is the one hit. */
  function Struck(m: Monster, id: int, damage: int): Monster
  {
    if m.id == id then m.(hp := m.hp - damage) else m
  }

  /** setMonsters(prev => prev.map(hit).filter(m => m.hp > 0)). */
  function Strike(ms: seq<Monster>, id: int, damage: int): (r: seq<Monster>)
    ensures |r| <= |ms|
    ensures forall k :: 0 <= k < |r| ==> r[k].hp > 0
    ensures forall k :: 0 <= k < |r| ==> exists i :: 0 <= i < |ms| && r[k] == Struck(ms[i], id, damage)
  {
    if ms == [] then []
    else
      var rest := Strike(ms[1..], id, damage);
      assert forall k :: 0 <= k < |rest| ==> exists i :: 0 <= i < |ms| && rest[k] == Struck(ms[i], id, damage) by {
        forall k | 0 <= k < |rest|
          ensures exists i :: 0 <= i < |ms| && rest[k] == Struck(ms[i], id, damage)
        {
          var i :| 0 <= i < |ms[1..]| && rest[k] == Struck(ms[1..][i], id, damage);
          assert ms[1..][i] == ms[i + 1];
        }
      }
      var m := Struck(ms[0], id, damage);
      if m.hp > 0 then [m] + rest else rest
  }

  /** The strike spares every living monster it does not hit, unchanged. */
  lemma {:induction false} StrikeSpares(ms: seq<Monster>, id: int, damage: int, i: int)
    requires 0 <= i < |ms| && ms[i].id != id && ms[i].hp > 0
    ensures ms[i] in Strike(ms, id, damage)
  {
    if i > 0 {
      StrikeSpares(ms[1..], id, damage, i - 1);
    }
  }

  /** A monster the strike takes to 0 hp or below leaves no struck copy behind. */
  lemma StrikeKills(ms: seq<Monster>, id: int, damage: int, i: int)
    requires 0 <= i < |ms| && ms[i].id == id && ms[i].hp - damage <= 0
    ensures ms[i].(hp := ms[i].hp - damage) !in Strike(ms, id, damage)
  {
  }

  /** A struck monster that survives is still there, with `damage` less hp. */
  lemma {:induction false} StrikeWounds(ms: seq<Monster>, id: int, damage: int, i: int)
    requires 0 <= i < |ms| && ms[i].id == id && ms[i].hp - damage > 0
    ensures ms[i].(hp := ms[i].hp - damage) in Strike(ms, id, damage)
  {
    if i > 0 {
      StrikeWounds(ms[1..], id, damage, i - 1);
    }
  }
}
