/** The state of the mini-game's component and one method per event that
    changes it: clicks, key presses, the one-second countdown, the
    five-second retarget interval, particle expiry and the three buttons. */
module TownGame {
  import opened Town

  const RoundSeconds: int := 300
  const EyeHeight: real := 1.6

  class GameModal {
    var gameState: GameState
    var isPaused: bool
    var timeLeft: int
    var score: real
    var solarLamps: seq<Lamp>
    var npcs: seq<Npc>
    var player: Player
    var gameStats: Stats
    var particles: seq<Particle>
    var buildingPositions: seq<Vec3>
    var isFPSMode: bool
    var cameraPosition: Vec3
    var cameraRotation: Vec3
    var showConfetti: bool

    /** The lamp list is the grid (or not yet built), the countdown lies in
        [0, 300], and the gauges are those of an energy figure in [0, 1800]. */
    ghost predicate Valid()
      reads this
    {
      && ValidLamps(solarLamps)
      && 0 <= timeLeft <= RoundSeconds
      && 0.0 <= gameStats.energyProduced <= MaxEnergy
      && gameStats == Metrics(gameStats.energyProduced)
    }

    /** The component as mounted: every piece of state at its initial value. */
    constructor ()
      ensures Valid()
      ensures gameState == Intro && !isPaused && timeLeft == RoundSeconds && score == 0.0
      ensures solarLamps == [] && npcs == [] && particles == [] && buildingPositions == []
      ensures player == Player(Vec3(0.0, 0.0, 0.0), Vec3(0.0, 0.0, 0.0), false)
      ensures gameStats == Metrics(0.0) && !isFPSMode && !showConfetti
      ensures cameraPosition == Vec3(0.0, EyeHeight, 0.0) && cameraRotation == Vec3(0.0, 0.0, 0.0)
    {
      gameState := Intro;
      isPaused := false;
      timeLeft := RoundSeconds;
      score := 0.0;
      solarLamps := [];
      npcs := [];
      player := Player(Vec3(0.0, 0.0, 0.0), Vec3(0.0, 0.0, 0.0), false);
      gameStats := Stats(0.0, 50.0, 0.0, 0.0);
      particles := [];
      buildingPositions := [];
      isFPSMode := false;
      cameraPosition := Vec3(0.0, EyeHeight, 0.0);
      cameraRotation := Vec3(0.0, 0.0, 0.0);
      showConfetti := false;
    }

    /** The initialisation effect when the modal opens on a mission: the
        grid, the roster, "intro", score 0, 300 s and the zero gauges. */
    method Open()
      requires Valid()
      modifies this`solarLamps, this`npcs, this`gameState, this`score, this`timeLeft, this`gameStats
      ensures Valid()
      ensures solarLamps == InitialLamps() && npcs == InitialNpcs()
      ensures gameState == Intro && score == 0.0 && timeLeft == RoundSeconds
      ensures gameStats == Metrics(0.0)
    {
      solarLamps := InitialLamps();
      npcs := InitialNpcs();
      gameState := Intro;
      score := 0.0;
      timeLeft := RoundSeconds;
      gameStats := Stats(0.0, 50.0, 0.0, 0.0);
    }

    /** The scene reports its twenty obstacles, each placed from two random
        values. */
    method ReportBuildings(rs: seq<(real, real)>)
      requires |rs| == 20 && RandomPairs(rs)
      modifies this`buildingPositions
      ensures |buildingPositions| == 20
      ensures forall i :: 0 <= i < 20 ==> buildingPositions[i] == BuildingPosition(rs[i])
    {
      buildingPositions := seq(20, i requires 0 <= i < 20 => BuildingPosition(rs[i]));
    }

    /** `checkCollision`: scan the obstacles, stop at the first one closer
        than 1.5. */
    method CheckCollision(p: Vec3) returns (hit: bool)
      ensures hit == Collides(buildingPositions, p)
      ensures hit ==> exists j :: 0 <= j < |buildingPositions| && Dist2(p, buildingPositions[j]) < Reach * Reach
      ensures !hit ==> forall j :: 0 <= j < |buildingPositions| ==> Dist2(p, buildingPositions[j]) >= Reach * Reach
    {
      var i := 0;
      while i < |buildingPositions|
        invariant 0 <= i <= |buildingPositions|
        invariant forall j :: 0 <= j < i ==> !Blocks(buildingPositions[j], p)
      {
        var b := buildingPositions[i];
        var d2 := (p.x - b.x) * (p.x - b.x) + (p.z - b.z) * (p.z - b.z);
        assert d2 == Dist2(p, b);
        if d2 < Reach * Reach {
          return true;
        }
        i := i + 1;
      }
      return false;
    }

    /** `createParticles`: append one batch and hand it back, so that its
        expiry two seconds later can name it. */
    method CreateParticles(x: real, y: real, kind: ParticleKind, stamp: int,
                           offsets: seq<(real, real)>, picks: seq<real>) returns (batch: seq<Particle>)
      requires BatchInputs(kind, offsets, picks)
      modifies this`particles
      ensures batch == Batch(x, y, kind, stamp, offsets, picks)
      ensures particles == old(particles) + batch
    {
      batch := Batch(x, y, kind, stamp, offsets, picks);
      particles := particles + batch;
    }

    /** The expiry of a batch: drop the records whose id is one of the
        batch's, keep the rest in order. */
    method ExpireBatch(batch: seq<Particle>)
      modifies this`particles
      ensures particles == Without(old(particles), IdsOf(batch))
      ensures forall p :: p in particles <==> p in old(particles) && p.id !in IdsOf(batch)
    {
      particles := Without(particles, IdsOf(batch));
      forall p ensures p in particles <==> p in old(particles) && p.id !in IdsOf(batch) {
        WithoutMembers(old(particles), IdsOf(batch), p);
      }
    }

    /** `handleLampPlace` for lamp `k`. Ignored unless playing. Otherwise the
        first placement sends every NPC walking to a random target; lamp k
        flips; the gauges and the score follow the energy figure summed over
        the lamps as they were before the click; every NPC's light flag, mood
        and activity are recomputed against those same lamps; a placement
        adds a sparkle batch at the lamp. */
    method PlaceLamp(k: nat, starts: seq<(real, real)>, stamp: int,
                     offsets: seq<(real, real)>, picks: seq<real>) returns (sparkles: seq<Particle>)
      requires Valid()
      requires k < |solarLamps|
      requires |starts| == |npcs| && RandomPairs(starts)
      requires BatchInputs(Sparkle, offsets, picks)
      modifies this`solarLamps, this`npcs, this`gameStats, this`score, this`particles
      ensures Valid()
      ensures old(gameState) != Playing ==>
        && solarLamps == old(solarLamps) && npcs == old(npcs) && gameStats == old(gameStats)
        && score == old(score) && particles == old(particles) && sparkles == []
      ensures old(gameState) == Playing ==>
        var before := old(solarLamps);
        var placing := !before[k].isPlaced;
        var energy := PlacementEnergy(before, k);
        var walkers := if placing && PlacedCount(before) == 0 then StartWalking(old(npcs), starts) else old(npcs);
        && solarLamps == Toggle(before, k)
        && gameStats == Metrics(energy)
        && score == energy
        && npcs == Relight(walkers, before, Metrics(energy).happiness)
        && sparkles == (if placing
                        then Batch(before[k].position.x * 10.0 + 50.0, before[k].position.z * 10.0 + 50.0,
                                   Sparkle, stamp, offsets, picks)
                        else [])
        && particles == old(particles) + sparkles
    {
      sparkles := [];
      if gameState != Playing {
        return;
      }
      var lamp := solarLamps[k];
      var isPlacing := !lamp.isPlaced;
      if isPlacing && PlacedCount(solarLamps) == 0 {
        npcs := StartWalking(npcs, starts);
      }
      var before := solarLamps;
      solarLamps := Toggle(solarLamps, k);
      var newEnergy := PlacementEnergy(before, k);
      PlacementEnergyCounts(before, k);
      gameStats := Metrics(newEnergy);
      npcs := Relight(npcs, before, gameStats.happiness);
      if isPlacing {
        sparkles := CreateParticles(lamp.position.x * 10.0 + 50.0, lamp.position.z * 10.0 + 50.0,
                                    Sparkle, stamp, offsets, picks);
      }
      score := newEnergy;
    }

    /** A click on lamp k's mesh, as the scene is wired: the lamp component
        receives the placement handler but binds it to no event, so the click
        reaches no handler and no state changes. */
    method ClickLamp(k: nat)
      requires k < |solarLamps|
      ensures unchanged(this)
    {
    }

    /** A click on lamp k with the placement handler bound to it. */
    method ClickLampWired(k: nat, starts: seq<(real, real)>, stamp: int,
                          offsets: seq<(real, real)>, picks: seq<real>) returns (sparkles: seq<Particle>)
      requires Valid()
      requires k < |solarLamps|
      requires |starts| == |npcs| && RandomPairs(starts)
      requires BatchInputs(Sparkle, offsets, picks)
      modifies this`solarLamps, this`npcs, this`gameStats, this`score, this`particles
      ensures Valid()
      ensures old(gameState) != Playing ==>
        && solarLamps == old(solarLamps) && npcs == old(npcs) && gameStats == old(gameStats)
        && score == old(score) && particles == old(particles) && sparkles == []
      ensures old(gameState) == Playing ==>
        var before := old(solarLamps);
        var placing := !before[k].isPlaced;
        var energy := PlacementEnergy(before, k);
        var walkers := if placing && PlacedCount(before) == 0 then StartWalking(old(npcs), starts) else old(npcs);
        && solarLamps == Toggle(before, k)
        && gameStats == Metrics(energy)
        && score == energy
        && npcs == Relight(walkers, before, Metrics(energy).happiness)
        && sparkles == (if placing
                        then Batch(before[k].position.x * 10.0 + 50.0, before[k].position.z * 10.0 + 50.0,
                                   Sparkle, stamp, offsets, picks)
                        else [])
        && particles == old(particles) + sparkles
    {
      sparkles := PlaceLamp(k, starts, stamp, offsets, picks);
    }

    /** The auto-complete effect, and the confetti flag it raises. */
    method Settle()
      modifies this`gameState, this`showConfetti
      ensures gameState == (if timeLeft == 0 && old(gameState) == Playing then Completed else old(gameState))
      ensures showConfetti == (old(showConfetti) || (timeLeft == 0 && old(gameState) == Playing))
    {
      if timeLeft == 0 && gameState == Playing {
        gameState := Completed;
        showConfetti := true;
      }
    }

    /** One second of the countdown: only while playing, unpaused and above
        zero does it drop, by one; reaching zero while playing completes. */
    method TickSecond()
      requires Valid()
      modifies this`timeLeft, this`gameState, this`showConfetti
      ensures Valid()
      ensures timeLeft == (if old(gameState) == Playing && !old(isPaused) && old(timeLeft) > 0
                           then old(timeLeft) - 1 else old(timeLeft))
      ensures gameState == (if old(gameState) == Playing && timeLeft == 0 then Completed else old(gameState))
      ensures showConfetti == (old(showConfetti) || (old(gameState) == Playing && timeLeft == 0))
    {
      if gameState == Playing && !isPaused && timeLeft > 0 {
        timeLeft := timeLeft - 1;
      }
      Settle();
    }

    /** The five-second interval: while playing, paused or not, every NPC
        that has reached its target draws a new one and walks. */
    method RetargetTick(rs: seq<(real, real)>)
      requires |rs| == |npcs| && RandomPairs(rs)
      modifies this`npcs
      ensures npcs == if old(gameState) == Playing then Retarget(old(npcs), rs) else old(npcs)
    {
      if gameState == Playing {
        npcs := Retarget(npcs, rs);
      }
    }

    /** `startGame`: playing and unpaused; the countdown is left as it is. */
    method Start()
      requires Valid()
      modifies this`gameState, this`isPaused, this`showConfetti
      ensures Valid()
      ensures !isPaused
      ensures gameState == (if timeLeft == 0 then Completed else Playing)
      ensures showConfetti == (old(showConfetti) || timeLeft == 0)
    {
      gameState := Playing;
      isPaused := false;
      Settle();
    }

    /** `togglePause` flips the flag in every state. */
    method TogglePause()
      modifies this`isPaused
      ensures isPaused == !old(isPaused)
    {
      isPaused := !isPaused;
    }

    /** `resetGame`: score 0, 300 s, "intro". Lamps, NPCs, gauges, player
        and particles stay as they are. */
    method Reset()
      requires Valid()
      modifies this`score, this`timeLeft, this`gameState
      ensures Valid()
      ensures score == 0.0 && timeLeft == RoundSeconds && gameState == Intro
    {
      score := 0.0;
      timeLeft := RoundSeconds;
      gameState := Intro;
    }

    /** The view button: first-person and top-down swap. */
    method ToggleViewMode()
      modifies this`isFPSMode
      ensures isFPSMode == !old(isFPSMode)
    {
      isFPSMode := !isFPSMode;
    }

    /** `handleKeyDown` while playing; `sinYaw` and `cosYaw` are the sine and
        cosine of the current yaw. A move is committed only when the target
        is clear; the yaw change (Q/E, first-person only) is written in every
        case. */
    method KeyDown(key: string, sinYaw: real, cosYaw: real)
      modifies this`player, this`cameraPosition, this`cameraRotation
      ensures old(gameState) != Playing ==>
        player == old(player) && cameraPosition == old(cameraPosition) && cameraRotation == old(cameraRotation)
      ensures old(gameState) == Playing ==>
        var c := CommandOf(key);
        var target := Proposed(c, isFPSMode, old(player).position, sinYaw, cosYaw);
        var moved := IsMove(c) && !Collides(buildingPositions, target);
        && player.position == (if moved then target else old(player).position)
        && player.rotation == old(player).rotation.(y := old(player).rotation.y + Turn(c, isFPSMode))
        && player.isMoving == (moved || old(player).isMoving)
        && cameraPosition == (if moved && isFPSMode then Vec3(target.x, target.y + EyeHeight, target.z)
                              else old(cameraPosition))
        && cameraRotation == (if isFPSMode then Vec3(0.0, player.rotation.y, 0.0) else old(cameraRotation))
      ensures old(gameState) == Playing && player.position != old(player).position ==>
        !Collides(buildingPositions, player.position)
    {
      if gameState != Playing {
        return;
      }
      var newPosition := player.position;
      var newRotation := player.rotation;
      var isMoving := false;
      var c := CommandOf(key);
      if isFPSMode {
        match c
        case Forward =>
          newPosition := newPosition.(x := newPosition.x + sinYaw * MoveSpeed, z := newPosition.z + cosYaw * MoveSpeed);
          isMoving := true;
        case Backward =>
          newPosition := newPosition.(x := newPosition.x - sinYaw * MoveSpeed, z := newPosition.z - cosYaw * MoveSpeed);
          isMoving := true;
        case StrafeLeft =>
          newPosition := newPosition.(x := newPosition.x - cosYaw * MoveSpeed, z := newPosition.z + sinYaw * MoveSpeed);
          isMoving := true;
        case StrafeRight =>
          newPosition := newPosition.(x := newPosition.x + cosYaw * MoveSpeed, z := newPosition.z - sinYaw * MoveSpeed);
          isMoving := true;
        case TurnLeft =>
          newRotation := newRotation.(y := newRotation.y - TurnSpeed);
        case TurnRight =>
          newRotation := newRotation.(y := newRotation.y + TurnSpeed);
        case NoCommand =>
      } else {
        match c
        case Forward =>
          newPosition := newPosition.(z := newPosition.z - MoveSpeed);
          isMoving := true;
        case Backward =>
          newPosition := newPosition.(z := newPosition.z + MoveSpeed);
          isMoving := true;
        case StrafeLeft =>
          newPosition := newPosition.(x := newPosition.x - MoveSpeed);
          isMoving := true;
        case StrafeRight =>
          newPosition := newPosition.(x := newPosition.x + MoveSpeed);
          isMoving := true;
        case _ =>
      }
      var blocked := true;
      if isMoving {
        blocked := CheckCollision(newPosition);
      }
      if isMoving && !blocked {
        player := Player(newPosition, newRotation, isMoving);
        if isFPSMode {
          cameraPosition := Vec3(newPosition.x, newPosition.y + EyeHeight, newPosition.z);
          cameraRotation := Vec3(0.0, newRotation.y, 0.0);
        }
      } else {
        player := player.(rotation := newRotation);
        if isFPSMode {
          cameraRotation := Vec3(0.0, newRotation.y, 0.0);
        }
      }
    }

    /** `handleKeyUp` while playing: a movement key clears the moving flag. */
    method KeyUp(key: string)
      modifies this`player
      ensures player == if old(gameState) == Playing && IsMove(CommandOf(key))
                        then old(player).(isMoving := false) else old(player)
    {
      if gameState == Playing && IsMove(CommandOf(key)) {
        player := player.(isMoving := false);
      }
    }
  }

  /** As wired, clicking any lamp of a fresh round places nothing: energy
      stays 0 and happiness 50. */
  method ClickingNeverPlacesALamp(k: nat) returns (g: GameModal)
    requires k < LampCount
    ensures g.gameState == Playing && g.solarLamps == InitialLamps()
    ensures PlacedCount(g.solarLamps) == 0 && g.score == 0.0 && g.gameStats.happiness == 50.0
  {
    g := new GameModal();
    g.Open();
    g.Start();
    g.ClickLamp(k);
  }

  /** With the handler bound, one click on the first lamp of a fresh round
      places it: one lamp, 50 energy, happiness 55, and a sparkle burst. */
  method WiredClickPlacesLamp() returns (g: GameModal, sparkles: seq<Particle>)
    ensures |g.solarLamps| == LampCount && g.solarLamps[0].isPlaced
    ensures PlacedCount(g.solarLamps) == 1 && g.score == LampOutput && g.gameStats.happiness == 55.0
    ensures |sparkles| == 15
  {
    g := new GameModal();
    g.Open();
    g.Start();
    var starts := seq(5, _ => (0.0, 0.0));
    var offsets := seq(15, _ => (0.5, 0.5));
    var picks := seq(15, _ => 0.0);
    sparkles := g.ClickLampWired(0, starts, 0, offsets, picks);
    ToggleCount(InitialLamps(), 0);
  }
}
