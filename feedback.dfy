// What the simulation reports back to the player besides its state:
// floating texts (components/Game.tsx:147-158), status messages, the
// dialogue box and the sound cues passed to playSound. Colours, fonts and
// the timers that clear messages are presentation and are not kept.
module Feedback {
  import opened Util

  /** What a floating text says; its colour follows from the kind. */
  datatype Label =
    | DamageDealt(amount: int)     // `${damage} `, white, over the monster
    | DamageTaken(amount: int)     // `- ${m.damage} `, red, over the player
    | AffectionGain                // '+10' and a heart, lime, over the NPC
    | Picked(name: string)         // `+ 1 ${def.name} `, lime
    | Earned(value: int)           // `+ ${val} g`, gold, over the bin
    | EnergyGain(amount: int)      // `+ ${def.energyRestore} Energy`, lime

  datatype FloatingText = FloatingText(x: real, y: real, caption: Label, life: int)

  /** The life, in 30 ms frames, of a freshly spawned text. */
  const TEXT_LIFE: int := 40

  /** spawnFloatingText: append a new text with the full life. */
  function Spawn(texts: seq<FloatingText>, x: int, y: int, caption: Label): (r: seq<FloatingText>)
    ensures |r| == |texts| + 1 && r[..|texts|] == texts
    ensures r[|texts|] == FloatingText(x as real, y as real, caption, TEXT_LIFE)
  {
    texts + [FloatingText(x as real, y as real, caption, TEXT_LIFE)]
  }

  /** One frame of the drift: up by 0.02 tiles, one frame less to live. */
  function Aged(t: FloatingText): FloatingText
  {
    t.(y := t.y - 0.02, life := t.life - 1)
  }

  /** The 30 ms decay step: every text ages; those with no life left are dropped. */
  function Decayed(texts: seq<FloatingText>): (r: seq<FloatingText>)
    ensures |r| <= |texts|
    ensures forall i :: 0 <= i < |r| ==> r[i].life > 0
    ensures forall i :: 0 <= i < |r| ==> exists j :: 0 <= j < |texts| && r[i] == Aged(texts[j])
    ensures (forall i :: 0 <= i < |texts| ==> texts[i].life <= 1) ==> r == []
  {
    if texts == [] then []
    else
      var rest := Decayed(texts[1..]);
      assert forall i :: 0 <= i < |rest| ==> exists j :: 0 <= j < |texts| && rest[i] == Aged(texts[j]) by {
        forall i | 0 <= i < |rest|
          ensures exists j :: 0 <= j < |texts| && rest[i] == Aged(texts[j])
        {
          var j :| 0 <= j < |texts[1..]| && rest[i] == Aged(texts[1..][j]);
          assert texts[1..][j] == texts[j + 1];
        }
      }
      var t := Aged(texts[0]);
      if t.life > 0 then [t] + rest else rest
  }

  /** A text with more than one frame left survives the step, aged. */
  lemma {:induction false} DecaySpares(texts: seq<FloatingText>, i: int)
    requires 0 <= i < |texts| && texts[i].life > 1
    ensures Aged(texts[i]) in Decayed(texts)
  {
    if i > 0 {
      DecaySpares(texts[1..], i - 1);
    }
  }

  /** `n` decay steps in a row. */
  function DecayedTimes(texts: seq<FloatingText>, n: nat): seq<FloatingText>
    decreases n
  {
    if n == 0 then texts else DecayedTimes(Decayed(texts), n - 1)
  }

  /** Texts with at most `n` frames to live are all gone after `n` steps; a fresh text lasts TEXT_LIFE frames. */
  lemma {:induction false} TextsExpire(texts: seq<FloatingText>, n: nat)
    requires n >= 1
    requires forall i :: 0 <= i < |texts| ==> texts[i].life <= n
    ensures DecayedTimes(texts, n) == []
    decreases n
  {
    var d := Decayed(texts);
    if n > 1 {
      forall i | 0 <= i < |d|
        ensures d[i].life <= n - 1
      {
        var j :| 0 <= j < |texts| && d[i] == Aged(texts[j]);
      }
      TextsExpire(d, n - 1);
    }
  }

  /** Status messages (their Chinese and English wording is presentation). */
  datatype Message =
    | ForcedSleep                  // passed out at 2:00, a new day begins
    | SeasonArrives(season: string)
    | PassedOut(lost: int)         // fainted, lost `lost` g
    | InventoryFull
    | NotEnoughEnergy
    | WrongSeason
    | NotEdible

  datatype Dialogue = Dialogue(speaker: string, text: string)

  /** The cues handed to playSound. */
  datatype Sound = StepSound | PickupSound | DigSound | WaterSound | HitSound | PlantSound
}
