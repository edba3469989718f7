/** Values and pure formulas of the solar-lamp town mini-game: the lamp grid,
    the four metrics, the in-light and mood rule, NPC retargeting, the
    collision test, the movement keys and the particle records. */
module Town {

  datatype Vec3 = Vec3(x: real, y: real, z: real)

  datatype GameState = Intro | Playing | Completed

  datatype Mood = Happy | Neutral | Sad

  datatype Activity = Walking | Idle | Celebrating

  /** A lamp slot; `id` is the i of the source's `lamp-i`. */
  datatype Lamp = Lamp(id: nat, position: Vec3, isPlaced: bool, isPowered: bool,
                       energyOutput: real, lightRadius: real)

  datatype Npc = Npc(id: string, name: string, position: Vec3, target: Vec3, mood: Mood,
                     isInLight: bool, activity: Activity, speed: real)

  datatype Player = Player(position: Vec3, rotation: Vec3, isMoving: bool)

  datatype Stats = Stats(energyProduced: real, happiness: real, environment: real, economy: real)

  const LampCount: nat := 36
  const GridWidth: nat := 6
  const LampSpacing: real := 2.5
  const GridOffset: real := 6.25
  const LampRadius: real := 3.0
  const LampOutput: real := 50.0
  const MaxEnergy: real := 1800.0   // LampOutput * LampCount

  /** A value of `Math.random()`. */
  predicate IsRandom(r: real) { 0.0 <= r < 1.0 }

  // ---------------------------------------------------------------- lamp grid

  function GridPosition(i: nat): (p: Vec3)
    requires i < LampCount
    ensures -GridOffset <= p.x <= GridOffset && p.y == 0.0 && -GridOffset <= p.z <= GridOffset
  {
    Vec3((i % GridWidth) as real * LampSpacing - GridOffset, 0.0,
         (i / GridWidth) as real * LampSpacing - GridOffset)
  }

  /** Neighbouring sites of a row are 2.5 apart along x, neighbouring rows
      2.5 apart along z. */
  lemma GridNeighbours(i: nat)
    requires i < LampCount
    ensures i % GridWidth < GridWidth - 1 ==>
      GridPosition(i + 1) == GridPosition(i).(x := GridPosition(i).x + LampSpacing)
    ensures i + GridWidth < LampCount ==>
      GridPosition(i + GridWidth) == GridPosition(i).(z := GridPosition(i).z + LampSpacing)
  {
    if i % GridWidth < GridWidth - 1 {
      assert (i + 1) % GridWidth == i % GridWidth + 1 && (i + 1) / GridWidth == i / GridWidth;
    }
    if i + GridWidth < LampCount {
      assert (i + GridWidth) % GridWidth == i % GridWidth && (i + GridWidth) / GridWidth == i / GridWidth + 1;
    }
  }

  /** No two slots of the grid share a position. */
  lemma GridPositionsDistinct(i: nat, j: nat)
    requires i < LampCount && j < LampCount && i != j
    ensures GridPosition(i) != GridPosition(j)
  {
    if i % GridWidth == j % GridWidth {
      assert i / GridWidth != j / GridWidth;
    }
  }

  /** The lamp invariant kept by every toggle: powered exactly when placed,
      output 50 when placed and 0 otherwise, radius 3. */
  predicate WellFormed(l: Lamp) {
    && l.isPowered == l.isPlaced
    && l.energyOutput == (if l.isPlaced then LampOutput else 0.0)
    && l.lightRadius == LampRadius
  }

  /** Either the list before initialisation or the full 6x6 grid, slot i at
      grid position i with id i. */
  predicate ValidLamps(ls: seq<Lamp>) {
    && (|ls| == 0 || |ls| == LampCount)
    && forall i :: 0 <= i < |ls| ==> ls[i].id == i && ls[i].position == GridPosition(i) && WellFormed(ls[i])
  }

  function PlacedCount(ls: seq<Lamp>): (n: nat)
    ensures n <= |ls|
  {
    if ls == [] then 0 else (if ls[0].isPlaced then 1 else 0) + PlacedCount(ls[1..])
  }

  /** The sum of `energyOutput` over the placed lamps of a list. */
  function EnergyOf(ls: seq<Lamp>): (e: real)
    ensures PlacedCount(ls) == 0 ==> e == 0.0
    ensures (forall i :: 0 <= i < |ls| ==> ls[i].energyOutput >= 0.0) ==> e >= 0.0
  {
    if ls == [] then 0.0 else (if ls[0].isPlaced then ls[0].energyOutput else 0.0) + EnergyOf(ls[1..])
  }

  lemma {:induction false} NothingPlacedCountsZero(ls: seq<Lamp>)
    requires forall i :: 0 <= i < |ls| ==> !ls[i].isPlaced
    ensures PlacedCount(ls) == 0
  {
    if ls != [] {
      NothingPlacedCountsZero(ls[1..]);
    }
  }

  lemma {:induction false} AllPlacedCountsAll(ls: seq<Lamp>)
    requires forall i :: 0 <= i < |ls| ==> ls[i].isPlaced
    ensures PlacedCount(ls) == |ls|
  {
    if ls != [] {
      AllPlacedCountsAll(ls[1..]);
    }
  }

  /** For well-formed lamps the energy sum is 50 per placed lamp. */
  lemma {:induction false} EnergyIsFiftyPerLamp(ls: seq<Lamp>)
    requires forall i :: 0 <= i < |ls| ==> WellFormed(ls[i])
    ensures EnergyOf(ls) == LampOutput * PlacedCount(ls) as real
  {
    if ls != [] {
      EnergyIsFiftyPerLamp(ls[1..]);
    }
  }

  /** The lamp list the initialisation effect builds. */
  function InitialLamps(): (ls: seq<Lamp>)
    ensures |ls| == LampCount && ValidLamps(ls)
    ensures forall i :: 0 <= i < |ls| ==> !ls[i].isPlaced
    ensures PlacedCount(ls) == 0 && EnergyOf(ls) == 0.0
  {
    var ls := seq(LampCount, i requires 0 <= i < LampCount =>
                    Lamp(i, GridPosition(i), false, false, 0.0, LampRadius));
    NothingPlacedCountsZero(ls);
    EnergyIsFiftyPerLamp(ls);
    ls
  }

  function SetPlaced(l: Lamp, placing: bool): Lamp {
    l.(isPlaced := placing, isPowered := placing,
       energyOutput := if placing then LampOutput else 0.0)
  }

  /** The list after clicking lamp `k`: every lamp with the clicked lamp's id
      gets the opposite of the clicked lamp's placed flag. */
  function Toggle(ls: seq<Lamp>, k: nat): (r: seq<Lamp>)
    requires k < |ls|
    ensures |r| == |ls|
    ensures ValidLamps(ls) ==>
      && ValidLamps(r)
      && r[k].isPlaced == !ls[k].isPlaced
      && (forall j :: 0 <= j < |ls| && j != k ==> r[j] == ls[j])
  {
    var placing := !ls[k].isPlaced;
    seq(|ls|, j requires 0 <= j < |ls| => if ls[j].id == ls[k].id then SetPlaced(ls[j], placing) else ls[j])
  }

  /** Clicking the same lamp twice gives back the list. */
  lemma ToggleTwiceRestores(ls: seq<Lamp>, k: nat)
    requires ValidLamps(ls) && k < |ls|
    ensures Toggle(Toggle(ls, k), k) == ls
  {
    var once := Toggle(ls, k);
    var twice := Toggle(once, k);
    forall j | 0 <= j < |ls| ensures twice[j] == ls[j] {
      if j == k {
        assert WellFormed(ls[k]) && once[k].isPlaced == !ls[k].isPlaced;
      }
    }
  }

  /** Changing one slot moves the count by the difference at that slot. */
  lemma {:induction false} CountAfterUpdate(a: seq<Lamp>, b: seq<Lamp>, k: nat)
    requires |a| == |b| && k < |a|
    requires forall j :: 0 <= j < |a| && j != k ==> a[j] == b[j]
    ensures PlacedCount(b) as int
            == PlacedCount(a) as int - (if a[k].isPlaced then 1 else 0) + (if b[k].isPlaced then 1 else 0)
  {
    if k == 0 {
      assert a[1..] == b[1..];
    } else {
      CountAfterUpdate(a[1..], b[1..], k - 1);
    }
  }

  lemma ToggleCount(ls: seq<Lamp>, k: nat)
    requires ValidLamps(ls) && k < |ls|
    ensures PlacedCount(Toggle(ls, k)) as int == PlacedCount(ls) as int + (if ls[k].isPlaced then -1 else 1)
  {
    CountAfterUpdate(ls, Toggle(ls, k), k);
  }

  /** The energy figure `handleLampPlace` computes: the sum over the list as
      it was BEFORE the click, plus 50 when the click places a lamp. */
  function PlacementEnergy(ls: seq<Lamp>, k: nat): (e: real)
    requires k < |ls|
    ensures ValidLamps(ls) ==>
      e == LampOutput * (PlacedCount(ls) + (if ls[k].isPlaced then 0 else 1)) as real
  {
    var e := EnergyOf(ls) + (if !ls[k].isPlaced then LampOutput else 0.0);
    assert ValidLamps(ls) ==>
      e == LampOutput * (PlacedCount(ls) + (if ls[k].isPlaced then 0 else 1)) as real
    by {
      if ValidLamps(ls) {
        EnergyIsFiftyPerLamp(ls);
      }
    }
    e
  }

  /** On a placement the figure is 50 per lamp placed afterwards; on a removal
      it is 50 per lamp placed before, one lamp more than remain. */
  lemma PlacementEnergyCounts(ls: seq<Lamp>, k: nat)
    requires ValidLamps(ls) && k < |ls|
    ensures !ls[k].isPlaced ==> PlacementEnergy(ls, k) == LampOutput * PlacedCount(Toggle(ls, k)) as real
    ensures ls[k].isPlaced ==>
      PlacementEnergy(ls, k) == LampOutput * PlacedCount(ls) as real
      && PlacementEnergy(ls, k) == LampOutput * (PlacedCount(Toggle(ls, k)) + 1) as real
    ensures 0.0 < PlacementEnergy(ls, k) <= MaxEnergy
  {
    EnergyIsFiftyPerLamp(ls);
    ToggleCount(ls, k);
  }

  /** Placing a lamp and removing it again shows the same energy figure
      twice, although the second click leaves the count where it started. */
  lemma PlaceThenRemoveShowsStaleEnergy(ls: seq<Lamp>, k: nat)
    requires ValidLamps(ls) && k < |ls| && !ls[k].isPlaced
    ensures var once := Toggle(ls, k);
            && PlacementEnergy(once, k) == PlacementEnergy(ls, k)
            && PlacedCount(Toggle(once, k)) == PlacedCount(ls)
            && PlacementEnergy(once, k) == EnergyOf(ls) + LampOutput
  {
    var once := Toggle(ls, k);
    PlacementEnergyCounts(ls, k);
    PlacementEnergyCounts(once, k);
    ToggleTwiceRestores(ls, k);
    EnergyIsFiftyPerLamp(ls);
  }

  // ------------------------------------------------------------------ metrics

  /** The four gauges derived from an energy figure. */
  function Metrics(energy: real): (s: Stats)
    ensures s.energyProduced == energy
    ensures energy >= 0.0 ==> 50.0 <= s.happiness <= 100.0
    ensures s.happiness == 100.0 <==> energy >= 500.0
    ensures energy < 500.0 ==> s.happiness == 50.0 + energy / 10.0
    ensures s.environment == energy * 0.5 && s.economy == energy * 0.1
    ensures s.environment == 5.0 * s.economy
  {
    var happiness := if 50.0 + energy / 10.0 < 100.0 then 50.0 + energy / 10.0 else 100.0;
    Stats(energy, happiness, energy * 0.5, energy * 0.1)
  }

  /** No lamp, one lamp, the full grid. */
  lemma MetricsScenarios(ls: seq<Lamp>)
    requires ValidLamps(ls) && |ls| == LampCount
    requires forall i :: 0 <= i < |ls| ==> ls[i].isPlaced
    ensures Metrics(0.0).happiness == 50.0
    ensures Metrics(LampOutput).happiness == 55.0
    ensures EnergyOf(ls) == MaxEnergy && Metrics(EnergyOf(ls)).happiness == 100.0
  {
    AllPlacedCountsAll(ls);
    EnergyIsFiftyPerLamp(ls);
  }

  // ------------------------------------------------------------ light and mood

  /** Squared distance in the ground plane (x and z). */
  function Dist2(a: Vec3, b: Vec3): real {
    (a.x - b.x) * (a.x - b.x) + (a.z - b.z) * (a.z - b.z)
  }

  /** A placed, powered lamp lights a point at planar distance at most its
      radius (compared squared: for a radius >= 0 the two tests agree). */
  predicate Lights(l: Lamp, p: Vec3) {
    l.isPlaced && l.isPowered && Dist2(p, l.position) <= l.lightRadius * l.lightRadius
  }

  predicate InLight(p: Vec3, ls: seq<Lamp>) {
    exists j :: 0 <= j < |ls| && Lights(ls[j], p)
  }

  /** Happy in light; otherwise neutral above 70 happiness, sad at or below. */
  function MoodFor(inLight: bool, happiness: real): (m: Mood)
    ensures m == Happy <==> inLight
    ensures m == Neutral <==> !inLight && happiness > 70.0
    ensures m == Sad <==> !inLight && happiness <= 70.0
  {
    if inLight then Happy else if happiness > 70.0 then Neutral else Sad
  }

  /** One NPC after a click: only its light flag, mood and activity change. */
  function Relit(n: Npc, ls: seq<Lamp>, happiness: real): (r: Npc)
    ensures r == n.(isInLight := r.isInLight, mood := r.mood, activity := r.activity)
    ensures r.isInLight == InLight(n.position, ls)
    ensures r.mood == MoodFor(r.isInLight, happiness)
    ensures r.activity == (if r.isInLight then Celebrating else Walking)
  {
    var lit := InLight(n.position, ls);
    n.(isInLight := lit, mood := MoodFor(lit, happiness),
       activity := if lit then Celebrating else Walking)
  }

  /** The NPC list after a click: light flag, mood and activity follow from
      the lamp list `ls` and the new happiness; nothing else changes. */
  function Relight(npcs: seq<Npc>, ls: seq<Lamp>, happiness: real): (r: seq<Npc>)
    ensures |r| == |npcs|
    ensures forall i :: 0 <= i < |r| ==>
      && r[i].isInLight == InLight(npcs[i].position, ls)
      && (r[i].mood == Happy <==> r[i].isInLight)
      && (r[i].mood == Neutral <==> !r[i].isInLight && happiness > 70.0)
      && (r[i].mood == Sad <==> !r[i].isInLight && happiness <= 70.0)
      && (r[i].activity == Celebrating <==> r[i].isInLight)
      && (r[i].activity == Walking <==> !r[i].isInLight)
      && r[i].id == npcs[i].id && r[i].name == npcs[i].name && r[i].position == npcs[i].position
      && r[i].target == npcs[i].target && r[i].speed == npcs[i].speed
  {
    seq(|npcs|, i requires 0 <= i < |npcs| => Relit(npcs[i], ls, happiness))
  }

  /** An NPC within the radius of a powered lamp is happy after a relight;
      one outside every radius is happy never, neutral exactly when happiness
      exceeds 70. */
  lemma LitNpcIsHappy(npcs: seq<Npc>, ls: seq<Lamp>, happiness: real, i: nat, j: nat)
    requires i < |npcs| && j < |ls|
    requires ls[j].isPlaced && ls[j].isPowered
    requires Dist2(npcs[i].position, ls[j].position) <= ls[j].lightRadius * ls[j].lightRadius
    ensures Relight(npcs, ls, happiness)[i].mood == Happy
  {
    assert Lights(ls[j], npcs[i].position);
  }

  lemma UnlitNpcMood(npcs: seq<Npc>, ls: seq<Lamp>, happiness: real, i: nat)
    requires i < |npcs|
    requires forall j :: 0 <= j < |ls| ==> !Lights(ls[j], npcs[i].position)
    ensures Relight(npcs, ls, happiness)[i].mood != Happy
    ensures Relight(npcs, ls, happiness)[i].mood == Neutral <==> happiness > 70.0
  {
  }

  // ------------------------------------------------------------------- NPCs

  /** The target `Math.random() * 10 - 5` on x and z. */
  function RandomTarget(r: (real, real)): (t: Vec3)
    requires IsRandom(r.0) && IsRandom(r.1)
    ensures -5.0 <= t.x < 5.0 && t.y == 0.0 && -5.0 <= t.z < 5.0
  {
    Vec3(r.0 * 10.0 - 5.0, 0.0, r.1 * 10.0 - 5.0)
  }

  predicate RandomPairs(rs: seq<(real, real)>) {
    forall i :: 0 <= i < |rs| ==> IsRandom(rs[i].0) && IsRandom(rs[i].1)
  }

  /** The first placement sends every NPC to a fresh random target. */
  function StartWalking(npcs: seq<Npc>, rs: seq<(real, real)>): (r: seq<Npc>)
    requires |rs| == |npcs| && RandomPairs(rs)
    ensures |r| == |npcs|
    ensures forall i :: 0 <= i < |r| ==>
      && r[i] == npcs[i].(target := r[i].target, activity := Walking)
      && -5.0 <= r[i].target.x < 5.0 && r[i].target.y == 0.0 && -5.0 <= r[i].target.z < 5.0
  {
    seq(|npcs|, i requires 0 <= i < |npcs| => npcs[i].(target := RandomTarget(rs[i]), activity := Walking))
  }

  const ArrivalDistance: real := 0.5

  /** Planar distance to the target below 0.5. */
  predicate Arrived(n: Npc) {
    Dist2(n.target, n.position) < ArrivalDistance * ArrivalDistance
  }

  /** One five-second retarget step applied to the whole roster. */
  function Retarget(npcs: seq<Npc>, rs: seq<(real, real)>): (r: seq<Npc>)
    requires |rs| == |npcs| && RandomPairs(rs)
    ensures |r| == |npcs|
    ensures forall i :: 0 <= i < |r| ==>
      if Arrived(npcs[i]) then
        && r[i] == npcs[i].(target := r[i].target, activity := Walking)
        && -5.0 <= r[i].target.x < 5.0 && r[i].target.y == 0.0 && -5.0 <= r[i].target.z < 5.0
      else r[i] == npcs[i]
  {
    seq(|npcs|, i requires 0 <= i < |npcs| =>
          if Arrived(npcs[i]) then npcs[i].(target := RandomTarget(rs[i]), activity := Walking) else npcs[i])
  }

  /** The fixed roster built by the initialisation effect. */
  function InitialNpcs(): (r: seq<Npc>)
    ensures |r| == 5
    ensures forall i :: 0 <= i < |r| ==>
      r[i].mood == Sad && !r[i].isInLight && r[i].activity == Idle && r[i].target == r[i].position
  {
    [ Npc("npc1", "Sarah", Vec3(-5.0, 0.0, -5.0), Vec3(-5.0, 0.0, -5.0), Sad, false, Idle, 1.0),
      Npc("npc2", "Ahmed", Vec3(5.0, 0.0, -5.0), Vec3(5.0, 0.0, -5.0), Sad, false, Idle, 1.2),
      Npc("npc3", "Maria", Vec3(-5.0, 0.0, 5.0), Vec3(-5.0, 0.0, 5.0), Sad, false, Idle, 0.8),
      Npc("npc4", "David", Vec3(5.0, 0.0, 5.0), Vec3(5.0, 0.0, 5.0), Sad, false, Idle, 1.1),
      Npc("npc5", "Lisa", Vec3(0.0, 0.0, 0.0), Vec3(0.0, 0.0, 0.0), Sad, false, Idle, 0.9) ]
  }

  /** Because the roster starts on its targets, the first retarget step sets
      every NPC walking, whether or not a lamp was placed. */
  lemma FirstRetargetMovesEveryone(rs: seq<(real, real)>)
    requires |rs| == 5 && RandomPairs(rs)
    ensures forall i :: 0 <= i < 5 ==> Retarget(InitialNpcs(), rs)[i].activity == Walking
  {
    var npcs := InitialNpcs();
    forall i | 0 <= i < 5 ensures Arrived(npcs[i]) {
      assert Dist2(npcs[i].target, npcs[i].position) == 0.0;
    }
  }

  /** The retarget step as the start handler's own comment intends it:
      NPCs still idle (no lamp placed yet) keep standing; the others
      retarget as before. */
  function RetargetStarted(npcs: seq<Npc>, rs: seq<(real, real)>): (r: seq<Npc>)
    requires |rs| == |npcs| && RandomPairs(rs)
    ensures |r| == |npcs|
    ensures forall i :: 0 <= i < |r| ==>
      r[i] == (if npcs[i].activity == Idle then npcs[i] else Retarget(npcs, rs)[i])
  {
    var moved := Retarget(npcs, rs);
    seq(|npcs|, i requires 0 <= i < |npcs| => if npcs[i].activity == Idle then npcs[i] else moved[i])
  }

  /** With the intended step the initial roster stays idle until the first
      placement, and once every NPC has started walking the two steps agree. */
  lemma RetargetStartedKeepsRosterIdle(npcs: seq<Npc>, rs: seq<(real, real)>)
    requires |rs| == |npcs| && RandomPairs(rs)
    ensures npcs == InitialNpcs() ==> RetargetStarted(npcs, rs) == npcs
    ensures (forall i :: 0 <= i < |npcs| ==> npcs[i].activity != Idle) ==>
      RetargetStarted(npcs, rs) == Retarget(npcs, rs)
  {
  }

  // --------------------------------------------------------------- collision

  const PlayerRadius: real := 0.5
  const BuildingHalfWidth: real := 1.0
  const Reach: real := PlayerRadius + BuildingHalfWidth

  /** A building blocks a point at planar distance below 1.5. */
  predicate Blocks(b: Vec3, p: Vec3) {
    Dist2(p, b) < Reach * Reach
  }

  predicate Collides(bs: seq<Vec3>, p: Vec3) {
    exists j :: 0 <= j < |bs| && Blocks(bs[j], p)
  }

  /** Exactly 1.5 away is free, an empty town never collides, and along an
      axis a point 1.5 - eps away is blocked where 1.5 + eps is free. */
  lemma CollisionBoundary(b: Vec3, p: Vec3, eps: real)
    requires 0.0 < eps < Reach
    ensures Dist2(p, b) == Reach * Reach ==> !Blocks(b, p)
    ensures !Collides([], p)
    ensures Blocks(b, Vec3(b.x + (Reach - eps), p.y, b.z))
    ensures !Blocks(b, Vec3(b.x + (Reach + eps), p.y, b.z))
  {
    var d := Reach - eps;
    var inner := Vec3(b.x + d, p.y, b.z);
    assert Dist2(inner, b) == d * d;
    assert d * d < Reach * d;
    var e := Reach + eps;
    var outer := Vec3(b.x + e, p.y, b.z);
    assert Dist2(outer, b) == e * e;
    assert e * e > Reach * e;
  }

  /** The obstacle `(Math.random() - 0.5) * 15` on x and z, at height 1. */
  function BuildingPosition(r: (real, real)): (b: Vec3)
    requires IsRandom(r.0) && IsRandom(r.1)
    ensures -7.5 <= b.x < 7.5 && b.y == 1.0 && -7.5 <= b.z < 7.5
  {
    Vec3((r.0 - 0.5) * 15.0, 1.0, (r.1 - 0.5) * 15.0)
  }

  // ---------------------------------------------------------- movement keys

  datatype Command = Forward | Backward | StrafeLeft | StrafeRight | TurnLeft | TurnRight | NoCommand

  function LowerChar(c: char): char {
    if 'A' <= c <= 'Z' then (c as int + 32) as char else c
  }

  /** `toLowerCase` on the ASCII letters. */
  function Lower(s: string): (r: string)
    ensures |r| == |s| && forall i :: 0 <= i < |s| ==> r[i] == LowerChar(s[i])
  {
    seq(|s|, i requires 0 <= i < |s| => LowerChar(s[i]))
  }

  /** The key names that move the player; also the list the key-up handler
      tests. */
  const MoveKeys: set<string> := {"w", "s", "a", "d", "arrowup", "arrowdown", "arrowleft", "arrowright"}

  /** The intent of a key, matched on its lower-cased name. */
  function CommandOf(key: string): (c: Command)
    ensures IsMove(c) <==> Lower(key) in MoveKeys
    ensures c == TurnLeft <==> Lower(key) == "q"
    ensures c == TurnRight <==> Lower(key) == "e"
  {
    var k := Lower(key);
    if k == "w" || k == "arrowup" then Forward
    else if k == "s" || k == "arrowdown" then Backward
    else if k == "a" || k == "arrowleft" then StrafeLeft
    else if k == "d" || k == "arrowright" then StrafeRight
    else if k == "q" then TurnLeft
    else if k == "e" then TurnRight
    else NoCommand
  }

  /** W, S, A, D and the arrows; not Q and E. */
  predicate IsMove(c: Command) {
    c.Forward? || c.Backward? || c.StrafeLeft? || c.StrafeRight?
  }

  lemma {:induction false} LowerIdempotent(s: string)
    ensures Lower(Lower(s)) == Lower(s)
  {
    forall i | 0 <= i < |s| ensures Lower(Lower(s))[i] == Lower(s)[i] {
      var c := s[i];
      assert Lower(Lower(s))[i] == LowerChar(LowerChar(c));
    }
  }

  /** The handler lower-cases the key first, so a key and its lower-cased
      name always mean the same. */
  lemma CommandIgnoresCase(key: string)
    ensures CommandOf(Lower(key)) == CommandOf(key)
  {
    LowerIdempotent(key);
  }

  lemma KeyNames()
    ensures CommandOf("W") == Forward && CommandOf("ArrowUp") == Forward
    ensures CommandOf("s") == Backward && CommandOf("ArrowDown") == Backward
    ensures CommandOf("A") == StrafeLeft && CommandOf("ArrowLeft") == StrafeLeft
    ensures CommandOf("d") == StrafeRight && CommandOf("ArrowRight") == StrafeRight
    ensures CommandOf("Q") == TurnLeft && CommandOf("e") == TurnRight
    ensures CommandOf("Enter") == NoCommand
  {
    assert Lower("W") == "w";
    assert Lower("ArrowUp") == "arrowup";
    assert Lower("s") == "s";
    assert Lower("ArrowDown") == "arrowdown";
    assert Lower("A") == "a";
    assert Lower("ArrowLeft") == "arrowleft";
    assert Lower("d") == "d";
    assert Lower("ArrowRight") == "arrowright";
    assert Lower("Q") == "q";
    assert Lower("e") == "e";
    assert Lower("Enter") == "enter";
  }

  const MoveSpeed: real := 0.1
  const TurnSpeed: real := 0.05

  /** Where a command would put the player: in first-person mode along the
      heading whose sine and cosine are given, in top-down mode along the
      world axes (W is negative z). */
  function Proposed(c: Command, fps: bool, p: Vec3, sinYaw: real, cosYaw: real): (q: Vec3)
    ensures q.y == p.y
    ensures !IsMove(c) ==> q == p
    ensures !fps && (c == Forward || c == Backward) ==> q.x == p.x && q.z != p.z
    ensures !fps && (c == StrafeLeft || c == StrafeRight) ==> q.z == p.z && q.x != p.x
  {
    if fps then
      match c
      case Forward => Vec3(p.x + sinYaw * MoveSpeed, p.y, p.z + cosYaw * MoveSpeed)
      case Backward => Vec3(p.x - sinYaw * MoveSpeed, p.y, p.z - cosYaw * MoveSpeed)
      case StrafeLeft => Vec3(p.x - cosYaw * MoveSpeed, p.y, p.z + sinYaw * MoveSpeed)
      case StrafeRight => Vec3(p.x + cosYaw * MoveSpeed, p.y, p.z - sinYaw * MoveSpeed)
      case _ => p
    else
      match c
      case Forward => p.(z := p.z - MoveSpeed)
      case Backward => p.(z := p.z + MoveSpeed)
      case StrafeLeft => p.(x := p.x - MoveSpeed)
      case StrafeRight => p.(x := p.x + MoveSpeed)
      case _ => p
  }

  /** The change of yaw a command asks for (Q and E, first-person mode only). */
  function Turn(c: Command, fps: bool): (t: real)
    ensures t == 0.0 || t == TurnSpeed || t == -TurnSpeed
    ensures t != 0.0 <==> fps && (c == TurnLeft || c == TurnRight)
  {
    if fps && c.TurnLeft? then -TurnSpeed
    else if fps && c.TurnRight? then TurnSpeed
    else 0.0
  }

  /** Top-down moves change exactly one axis by 0.1; a move never turns and
      a turn never moves; opposite commands undo each other. */
  lemma MovementShape(c: Command, fps: bool, p: Vec3, s: real, co: real)
    ensures !fps && IsMove(c) ==>
      var q := Proposed(c, fps, p, s, co);
      q.y == p.y &&
      ((q.x == p.x && (q.z == p.z - MoveSpeed || q.z == p.z + MoveSpeed)) ||
       (q.z == p.z && (q.x == p.x - MoveSpeed || q.x == p.x + MoveSpeed)))
    ensures !IsMove(c) ==> Proposed(c, fps, p, s, co) == p
    ensures IsMove(c) ==> Turn(c, fps) == 0.0
    ensures !fps ==> Turn(c, fps) == 0.0
    ensures Proposed(Backward, fps, Proposed(Forward, fps, p, s, co), s, co) == p
    ensures Proposed(StrafeRight, fps, Proposed(StrafeLeft, fps, p, s, co), s, co) == p
    ensures Turn(TurnLeft, fps) + Turn(TurnRight, fps) == 0.0
  {
  }

  /** A first-person step has length 0.1 when sine and cosine are those of
      one angle. */
  lemma FirstPersonStepLength(c: Command, p: Vec3, s: real, co: real)
    requires IsMove(c) && s * s + co * co == 1.0
    ensures Dist2(Proposed(c, true, p, s, co), p) == MoveSpeed * MoveSpeed
  {
    var q := Proposed(c, true, p, s, co);
    assert Dist2(q, p) == (q.x - p.x) * (q.x - p.x) + (q.z - p.z) * (q.z - p.z);
    if c.Forward? || c.Backward? {
      assert (q.x - p.x) * (q.x - p.x) == s * s * (MoveSpeed * MoveSpeed);
      assert (q.z - p.z) * (q.z - p.z) == co * co * (MoveSpeed * MoveSpeed);
    } else {
      assert (q.x - p.x) * (q.x - p.x) == co * co * (MoveSpeed * MoveSpeed);
      assert (q.z - p.z) * (q.z - p.z) == s * s * (MoveSpeed * MoveSpeed);
    }
    assert Dist2(q, p) == (s * s + co * co) * (MoveSpeed * MoveSpeed);
  }

  // ---------------------------------------------------------------- particles

  datatype ParticleKind = Sparkle | Energy | Confetti

  /** The parts of the source's id `particle-<stamp>-<index>`. */
  datatype ParticleId = ParticleId(stamp: int, index: nat)

  datatype Particle = Particle(id: ParticleId, x: real, y: real, kind: ParticleKind,
                               color: string, life: real)

  function Palette(k: ParticleKind): (p: seq<string>)
    ensures |p| > 0
  {
    match k
    case Sparkle => ["#fbbf24", "#f59e0b", "#d97706"]
    case Energy => ["#3b82f6", "#1d4ed8", "#1e40af"]
    case Confetti => ["#ef4444", "#f97316", "#eab308", "#22c55e", "#3b82f6", "#8b5cf6"]
  }

  function BatchSize(k: ParticleKind): nat {
    if k == Confetti then 25 else 15
  }

  /** `Math.floor(r * n)`, an index into a palette of n colours. */
  function Pick(r: real, n: nat): (i: nat)
    requires IsRandom(r) && n > 0
    ensures i < n
  {
    var f := (r * n as real).Floor;
    assert f as real <= r * n as real < n as real;
    f
  }

  /** The random values one batch needs: two offsets and one colour pick per
      particle. */
  predicate BatchInputs(k: ParticleKind, offsets: seq<(real, real)>, picks: seq<real>) {
    && |offsets| == BatchSize(k) && |picks| == BatchSize(k)
    && RandomPairs(offsets)
    && forall i :: 0 <= i < |picks| ==> IsRandom(picks[i])
  }

  /** The records one `createParticles` call appends. */
  function Batch(x: real, y: real, k: ParticleKind, stamp: int,
                 offsets: seq<(real, real)>, picks: seq<real>): (b: seq<Particle>)
    requires BatchInputs(k, offsets, picks)
    ensures |b| == BatchSize(k)
    ensures forall i :: 0 <= i < |b| ==>
      && b[i].id == ParticleId(stamp, i) && b[i].kind == k && b[i].life == 1.0
      && b[i].color in Palette(k)
      && x - 10.0 <= b[i].x < x + 10.0 && y - 10.0 <= b[i].y < y + 10.0
  {
    seq(BatchSize(k), i requires 0 <= i < BatchSize(k) =>
          Particle(ParticleId(stamp, i),
                   x + (offsets[i].0 - 0.5) * 20.0,
                   y + (offsets[i].1 - 0.5) * 20.0,
                   k,
                   Palette(k)[Pick(picks[i], |Palette(k)|)],
                   1.0))
  }

  function IdsOf(ps: seq<Particle>): (ids: set<ParticleId>)
    ensures forall i :: 0 <= i < |ps| ==> ps[i].id in ids
  {
    set i | 0 <= i < |ps| :: ps[i].id
  }

  /** The records whose id is not in `ids`, in their order. */
  function Without(ps: seq<Particle>, ids: set<ParticleId>): (r: seq<Particle>)
    ensures |r| <= |ps|
    ensures forall i :: 0 <= i < |r| ==> r[i].id !in ids
  {
    if ps == [] then []
    else (if ps[0].id in ids then [] else [ps[0]]) + Without(ps[1..], ids)
  }

  lemma {:induction false} WithoutMembers(ps: seq<Particle>, ids: set<ParticleId>, p: Particle)
    ensures p in Without(ps, ids) <==> p in ps && p.id !in ids
  {
    if ps != [] {
      WithoutMembers(ps[1..], ids, p);
      assert ps == [ps[0]] + ps[1..];
    }
  }

  lemma {:induction false} WithoutAppend(a: seq<Particle>, b: seq<Particle>, ids: set<ParticleId>)
    ensures Without(a + b, ids) == Without(a, ids) + Without(b, ids)
  {
    if a == [] {
      assert a + b == b;
    } else {
      assert (a + b)[1..] == a[1..] + b;
      WithoutAppend(a[1..], b, ids);
    }
  }

  lemma {:induction false} WithoutUntouched(ps: seq<Particle>, ids: set<ParticleId>)
    requires forall i :: 0 <= i < |ps| ==> ps[i].id !in ids
    ensures Without(ps, ids) == ps
  {
    if ps != [] {
      WithoutUntouched(ps[1..], ids);
    }
  }

  lemma {:induction false} WithoutAll(ps: seq<Particle>)
    ensures Without(ps, IdsOf(ps)) == []
  {
    if ps != [] {
      WithoutAll(ps[1..]);
      assert IdsOf(ps[1..]) <= IdsOf(ps);
      WithoutShrinks(ps[1..], IdsOf(ps[1..]), IdsOf(ps));
    }
  }

  lemma {:induction false} WithoutShrinks(ps: seq<Particle>, ids: set<ParticleId>, more: set<ParticleId>)
    requires ids <= more && Without(ps, ids) == []
    ensures Without(ps, more) == []
  {
    if ps != [] {
      WithoutShrinks(ps[1..], ids, more);
    }
  }

  /** Expiring a batch removes exactly that batch, wherever it sits, and
      keeps every other record in order, provided no other record shares
      one of its ids. */
  lemma ExpireRemovesOnlyBatch(before: seq<Particle>, batch: seq<Particle>, after: seq<Particle>)
    requires forall i :: 0 <= i < |before| ==> before[i].id !in IdsOf(batch)
    requires forall i :: 0 <= i < |after| ==> after[i].id !in IdsOf(batch)
    ensures Without(before + batch + after, IdsOf(batch)) == before + after
  {
    var ids := IdsOf(batch);
    WithoutAppend(before + batch, after, ids);
    WithoutAppend(before, batch, ids);
    WithoutUntouched(before, ids);
    WithoutUntouched(after, ids);
    WithoutAll(batch);
    assert Without(before + batch, ids) == before;
  }

  /** A batch stamped later than every record present has fresh ids. */
  lemma LaterStampIsFresh(ps: seq<Particle>, x: real, y: real, k: ParticleKind, stamp: int,
                          offsets: seq<(real, real)>, picks: seq<real>)
    requires BatchInputs(k, offsets, picks)
    requires forall i :: 0 <= i < |ps| ==> ps[i].id.stamp < stamp
    ensures forall i :: 0 <= i < |ps| ==> ps[i].id !in IdsOf(Batch(x, y, k, stamp, offsets, picks))
  {
  }
}
