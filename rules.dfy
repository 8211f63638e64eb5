/** The rules of the game as functions on a value that holds every field of
    the WumpusWorld object (app.js:26-42, 149-382). The class in
    wumpus_world.dfy is proved to change its fields exactly as these
    functions say; the lemmas here state what the rules promise. */
module Rules {
  import opened Board
  import Generation

  /** The `gameState` phase (app.js:34). */
  datatype Phase = Playing | Won | Lost

  /** The percept tags kept in `currentPerceptions` (app.js:494). */
  datatype Percept = Stench | Breeze | Glitter | Bump | Scream

  /** Every field of the game object. */
  datatype Game = Game(
    x: int, y: int,
    facing: Dir,
    score: int,
    arrows: int,
    hasGold: bool,
    phase: Phase,
    visited: set<Pos>,
    percepts: set<Percept>,
    wumpusAlive: bool,
    grid: Grid)
  {
    function Here(): Pos { (x, y) }
  }

  /** What holds of the game object between actions: the player is inside the
      cave, the grid has every cell, and the quiver is never negative. */
  predicate Valid(g: Game) {
    Inside(g.Here()) && FullGrid(g.grid) && g.arrows >= 0
  }

  // ---------------------------------------------------------------------
  // Percepts (app.js:322-382)
  // ---------------------------------------------------------------------

  /** clearPerceptions: drop every percept except a pending scream. */
  function ClearPerceptions(ps: set<Percept>): (r: set<Percept>)
    ensures r <= {Scream}
    ensures Scream in r <==> Scream in ps
  {
    if Scream in ps then {Scream} else {}
  }

  /** What the neighbour along heading `d` contributes (app.js:335-356). */
  function NeighbourSignals(g: Game, d: Dir): set<Percept> {
    var q := Next(g.Here(), d);
    if !Inside(q) then {}
    else
      (if CellAt(g.grid, q).wumpus && g.wumpusAlive then {Stench} else {}) +
      (if CellAt(g.grid, q).pit then {Breeze} else {})
  }

  /** What the neighbour along `d` adds to a percept set, case by case, in
      the order updatePerceptions adds them: stench first, then breeze. */
  lemma AddingSignals(g: Game, d: Dir, c: Cell, acc: set<Percept>)
    requires Inside(Next(g.Here(), d)) ==> c == CellAt(g.grid, Next(g.Here(), d))
    ensures !Inside(Next(g.Here(), d)) ==> acc == acc + NeighbourSignals(g, d)
    ensures Inside(Next(g.Here(), d)) && c.wumpus && g.wumpusAlive && c.pit ==>
      acc + {Stench} + {Breeze} == acc + NeighbourSignals(g, d)
    ensures Inside(Next(g.Here(), d)) && c.wumpus && g.wumpusAlive && !c.pit ==>
      acc + {Stench} == acc + NeighbourSignals(g, d)
    ensures Inside(Next(g.Here(), d)) && !(c.wumpus && g.wumpusAlive) && c.pit ==>
      acc + {Breeze} == acc + NeighbourSignals(g, d)
    ensures Inside(Next(g.Here(), d)) && !(c.wumpus && g.wumpusAlive) && !c.pit ==>
      acc == acc + NeighbourSignals(g, d)
  {
  }

  /** The signals of a neighbour do not depend on the percepts already held. */
  lemma SignalsIgnorePercepts(g: Game, ps: set<Percept>, d: Dir)
    ensures NeighbourSignals(g.(percepts := ps), d) == NeighbourSignals(g, d)
  {
  }

  /** One more heading of the scan, on top of any set of earlier percepts. */
  lemma ScanStep(g: Game, n: nat, base: set<Percept>)
    requires n < 4
    ensures base + NeighbourPercepts(g, n) + NeighbourSignals(g, n) == base + NeighbourPercepts(g, n + 1)
  {
  }

  /** The percepts gathered from the first `n` headings of the scan at app.js:334. */
  function NeighbourPercepts(g: Game, n: nat): set<Percept>
    requires n <= 4
  {
    if n == 0 then {} else NeighbourPercepts(g, n - 1) + NeighbourSignals(g, n - 1)
  }

  /** The percept set updatePerceptions leaves. */
  function Sensed(g: Game): set<Percept> {
    ClearPerceptions(g.percepts) +
    (if CellAt(g.grid, g.Here()).gold then {Glitter} else {}) +
    NeighbourPercepts(g, 4)
  }

  /** updatePerceptions: recompute the percepts of the player's cell. */
  function UpdatePerceptions(g: Game): (r: Game)
    ensures r == g.(percepts := r.percepts)
  {
    g.(percepts := Sensed(g))
  }

  /** Whether some orthogonal neighbour of `p` inside the cave holds a wumpus. */
  ghost predicate WumpusNextTo(grid: Grid, p: Pos) {
    exists q :: Inside(q) && Adjacent(p, q) && CellAt(grid, q).wumpus
  }

  /** Whether some orthogonal neighbour of `p` inside the cave holds a pit. */
  ghost predicate PitNextTo(grid: Grid, p: Pos) {
    exists q :: Inside(q) && Adjacent(p, q) && CellAt(grid, q).pit
  }

  /** Whether the neighbour along `d` is inside the cave and holds a wumpus. */
  ghost predicate WumpusToward(g: Game, d: Dir) {
    Inside(Next(g.Here(), d)) && CellAt(g.grid, Next(g.Here(), d)).wumpus
  }

  /** Whether the neighbour along `d` is inside the cave and holds a pit. */
  ghost predicate PitToward(g: Game, d: Dir) {
    Inside(Next(g.Here(), d)) && CellAt(g.grid, Next(g.Here(), d)).pit
  }

  lemma {:induction false} NeighbourScan(g: Game, n: nat)
    requires n <= 4
    ensures NeighbourPercepts(g, n) <= {Stench, Breeze}
    ensures Stench in NeighbourPercepts(g, n) <==> g.wumpusAlive && exists d: Dir :: d < n && WumpusToward(g, d)
    ensures Breeze in NeighbourPercepts(g, n) <==> exists d: Dir :: d < n && PitToward(g, d)
  {
    if n > 0 {
      NeighbourScan(g, n - 1);
      var d: Dir := n - 1;
      assert Stench in NeighbourSignals(g, d) <==> g.wumpusAlive && WumpusToward(g, d);
      assert Breeze in NeighbourSignals(g, d) <==> PitToward(g, d);
    }
  }

  /** The neighbours the scan visits are exactly the adjacent cells. */
  lemma ScanCoversNeighbours(g: Game)
    ensures WumpusNextTo(g.grid, g.Here()) <==> exists d: Dir :: WumpusToward(g, d)
    ensures PitNextTo(g.grid, g.Here()) <==> exists d: Dir :: PitToward(g, d)
  {
    var p := g.Here();
    if WumpusNextTo(g.grid, p) {
      var q :| Inside(q) && Adjacent(p, q) && CellAt(g.grid, q).wumpus;
      AdjacentIsOneStep(p, q);
      var d: Dir :| q == Next(p, d);
      assert WumpusToward(g, d);
    }
    if exists d: Dir :: WumpusToward(g, d) {
      var d: Dir :| WumpusToward(g, d);
      AdjacentIsOneStep(p, Next(p, d));
    }
    if PitNextTo(g.grid, p) {
      var q :| Inside(q) && Adjacent(p, q) && CellAt(g.grid, q).pit;
      AdjacentIsOneStep(p, q);
      var d: Dir :| q == Next(p, d);
      assert PitToward(g, d);
    }
    if exists d: Dir :: PitToward(g, d) {
      var d: Dir :| PitToward(g, d);
      AdjacentIsOneStep(p, Next(p, d));
    }
  }

  /** After updatePerceptions: glitter iff gold here, stench iff a live wumpus
      next door, breeze iff a pit next door, scream iff it was pending, never bump. */
  lemma PerceptsAfterUpdate(g: Game)
    ensures var ps := UpdatePerceptions(g).percepts;
      && (Glitter in ps <==> CellAt(g.grid, g.Here()).gold)
      && (Stench in ps <==> g.wumpusAlive && WumpusNextTo(g.grid, g.Here()))
      && (Breeze in ps <==> PitNextTo(g.grid, g.Here()))
      && (Scream in ps <==> Scream in g.percepts)
      && Bump !in ps
  {
    NeighbourScan(g, 4);
    ScanCoversNeighbours(g);
  }

  // ---------------------------------------------------------------------
  // The arrow (app.js:261-295)
  // ---------------------------------------------------------------------

  /** The cell where an arrow shot from `from` along `d` kills the wumpus, if
      any: it steps cell by cell until it leaves the cave or enters a cell
      holding a live wumpus; pits do not stop it. */
  function RayTarget(grid: Grid, alive: bool, from: Pos, d: Dir): (hit: Option<Pos>)
    ensures hit.Some? ==> Inside(hit.value) && CellAt(grid, hit.value).wumpus && alive
    decreases Reach(from, d)
  {
    var next := Next(from, d);
    if !Inside(next) then None
    else if CellAt(grid, next).wumpus && alive then Some(next)
    else RayTarget(grid, alive, next, d)
  }

  /** Whether a live wumpus lies `k` steps along the ray. */
  ghost predicate WumpusAt(grid: Grid, from: Pos, d: Dir, k: int) {
    1 <= k && Inside(Along(from, d, k)) && CellAt(grid, Along(from, d, k)).wumpus
  }

  /** A wumpus lies on the ray iff it is in the next cell or on the ray from there. */
  lemma WumpusOnRayStep(grid: Grid, from: Pos, d: Dir)
    requires Inside(Next(from, d))
    ensures (exists k :: WumpusAt(grid, from, d, k)) <==>
      CellAt(grid, Next(from, d)).wumpus || exists k :: WumpusAt(grid, Next(from, d), d, k)
  {
    AlongAfterStep(from, d, 0);
    if exists k :: WumpusAt(grid, from, d, k) {
      var k :| WumpusAt(grid, from, d, k);
      AlongAfterStep(from, d, k - 1);
      if k > 1 {
        assert WumpusAt(grid, Next(from, d), d, k - 1);
      }
    }
    if exists k :: WumpusAt(grid, Next(from, d), d, k) {
      var k :| WumpusAt(grid, Next(from, d), d, k);
      AlongAfterStep(from, d, k);
      assert WumpusAt(grid, from, d, k + 1);
    }
    if CellAt(grid, Next(from, d)).wumpus {
      assert WumpusAt(grid, from, d, 1);
    }
  }

  /** No wumpus lies on a ray whose first step already leaves the cave. */
  lemma NoWumpusPastTheWall(grid: Grid, from: Pos, d: Dir)
    requires Inside(from) && !Inside(Next(from, d))
    ensures !exists k :: WumpusAt(grid, from, d, k)
  {
    forall k | WumpusAt(grid, from, d, k) ensures false {
      LeavingIsFinal(from, d, k);
    }
  }

  /** The arrow kills iff a live wumpus lies somewhere on the ray inside the cave. */
  lemma {:induction false} RayHitsIffWumpusInLine(grid: Grid, alive: bool, from: Pos, d: Dir)
    requires Inside(from)
    ensures RayTarget(grid, alive, from, d).Some? <==> alive && exists k :: WumpusAt(grid, from, d, k)
    decreases Reach(from, d)
  {
    var next := Next(from, d);
    if !Inside(next) {
      NoWumpusPastTheWall(grid, from, d);
    } else {
      WumpusOnRayStep(grid, from, d);
      if !(CellAt(grid, next).wumpus && alive) {
        RayHitsIffWumpusInLine(grid, alive, next, d);
      }
    }
  }

  /** Whether the first `k - 1` cells of the ray lie inside the cave and hold no wumpus. */
  ghost predicate ClearBefore(grid: Grid, from: Pos, d: Dir, k: int) {
    forall j :: 1 <= j < k ==> Inside(Along(from, d, j)) && !CellAt(grid, Along(from, d, j)).wumpus
  }

  /** A clear stretch after the first step, behind a clear first cell, is clear one step longer. */
  lemma ClearBeforeGrows(grid: Grid, from: Pos, d: Dir, k: int)
    requires Inside(Next(from, d)) && !CellAt(grid, Next(from, d)).wumpus
    requires ClearBefore(grid, Next(from, d), d, k)
    ensures ClearBefore(grid, from, d, k + 1)
  {
    forall j | 1 <= j < k + 1
      ensures Inside(Along(from, d, j)) && !CellAt(grid, Along(from, d, j)).wumpus
    {
      AlongAfterStep(from, d, j - 1);
    }
  }

  /** The arrow stops at the nearest wumpus on the ray, having crossed only
      cells inside the cave that hold no wumpus. */
  lemma {:induction false} RayHitsNearestWumpus(grid: Grid, alive: bool, from: Pos, d: Dir)
    requires Inside(from)
    ensures RayTarget(grid, alive, from, d).Some? ==>
      exists k :: 1 <= k && RayTarget(grid, alive, from, d).value == Along(from, d, k) &&
        ClearBefore(grid, from, d, k)
    decreases Reach(from, d)
  {
    var next := Next(from, d);
    AlongAfterStep(from, d, 0);
    if Inside(next) && !(CellAt(grid, next).wumpus && alive) {
      RayHitsNearestWumpus(grid, alive, next, d);
      var hit := RayTarget(grid, alive, next, d);
      assert RayTarget(grid, alive, from, d) == hit;
      if hit.Some? {
        var k :| 1 <= k && hit.value == Along(next, d, k) && ClearBefore(grid, next, d, k);
        AlongAfterStep(from, d, k);
        ClearBeforeGrows(grid, from, d, k);
      }
    } else if Inside(next) {
      assert ClearBefore(grid, from, d, 1);
    }
  }

  // ---------------------------------------------------------------------
  // Actions (app.js:149-320)
  // ---------------------------------------------------------------------

  /** moveForward (app.js:149-203). */
  function MoveForward(g: Game): (r: Game)
    ensures Valid(g) ==> Valid(r)
  {
    if g.phase != Playing then g
    else
      var target := Next(g.Here(), g.facing);
      if !Inside(target) then g.(percepts := g.percepts + {Bump})
      else
        var moved := g.(x := target.0, y := target.1, score := g.score - 1, visited := g.visited + {target});
        var cell := CellAt(g.grid, target);
        // the wumpus case (app.js:183) and the pit case (app.js:191) end the same way
        if (cell.wumpus && g.wumpusAlive) || cell.pit then moved.(phase := Lost, score := moved.score - 1000)
        else UpdatePerceptions(moved)
  }

  /** turnLeft (app.js:205-215): one step back in the cycle up, right, down, left. */
  function TurnLeft(g: Game): (r: Game)
    ensures Valid(g) ==> Valid(r)
  {
    if g.phase != Playing then g
    else g.(facing := (g.facing + 3) % 4, score := g.score - 1)
  }

  /** turnRight (app.js:217-227): one step on in the cycle up, right, down, left. */
  function TurnRight(g: Game): (r: Game)
    ensures Valid(g) ==> Valid(r)
  {
    if g.phase != Playing then g
    else g.(facing := (g.facing + 1) % 4, score := g.score - 1)
  }

  /** grab (app.js:229-247). */
  function Grab(g: Game): (r: Game)
    ensures Valid(g) ==> Valid(r)
  {
    if g.phase != Playing then g
    else
      var cell := CellAt(g.grid, g.Here());
      if cell.gold && !g.hasGold then g.(hasGold := true, grid := g.grid[g.Here() := cell.(gold := false)])
      else g
  }

  /** shoot (app.js:249-298). */
  function Shoot(g: Game): (r: Game)
    ensures Valid(g) ==> Valid(r)
  {
    if g.phase != Playing then g
    else if g.arrows <= 0 then g
    else
      var fired := g.(arrows := g.arrows - 1, score := g.score - 10);
      match RayTarget(g.grid, g.wumpusAlive, g.Here(), g.facing)
      case None => fired
      case Some(p) =>
        fired.(wumpusAlive := false,
               grid := g.grid[p := CellAt(g.grid, p).(wumpus := false)],
               percepts := g.percepts + {Scream})
  }

  /** The value of a shot that misses, in one piece. */
  lemma ShootMisses(g: Game)
    requires g.phase == Playing && g.arrows > 0
    requires RayTarget(g.grid, g.wumpusAlive, g.Here(), g.facing) == None
    ensures Shoot(g) == g.(arrows := g.arrows - 1, score := g.score - 10)
  {
  }

  /** The value of a shot that kills the wumpus in cell `p`, in the order
      shoot makes its changes: the arrow and its cost, the dead wumpus, the scream. */
  lemma ShootKills(g: Game, p: Pos)
    requires g.phase == Playing && g.arrows > 0
    requires RayTarget(g.grid, g.wumpusAlive, g.Here(), g.facing) == Some(p)
    ensures var fired := g.(arrows := g.arrows - 1, score := g.score - 10);
      var killed := fired.(wumpusAlive := false, grid := fired.grid[p := CellAt(fired.grid, p).(wumpus := false)]);
      Shoot(g) == killed.(percepts := killed.percepts + {Scream})
  {
  }

  /** climb (app.js:300-320). */
  function Climb(g: Game): (r: Game)
    ensures Valid(g) ==> Valid(r)
  {
    if g.phase != Playing then g
    else if g.Here() != Start then g
    else if !g.hasGold then g
    else g.(phase := Won, score := g.score + 1000)
  }

  /** The expiry callback that addPerception schedules for bump and scream (app.js:366-372). */
  function ExpirePerception(g: Game, p: Percept): (r: Game)
    requires p == Bump || p == Scream
    ensures r.percepts == g.percepts - {p}
    ensures r == g.(percepts := r.percepts)
  {
    g.(percepts := g.percepts - {p})
  }

  /** initializeGame (app.js:26-46) on the world generateWorld built. */
  function Initial(grid: Grid): Game {
    Game(Start.0, Start.1, Right, 0, 1, false, Playing, {Start}, {}, true, grid)
  }

  /** A fresh game: initializeGame followed by updatePerceptions, as both the
      constructor (app.js:19-21) and restartGame (app.js:563-564) run them. */
  function NewGame(wumpusIndex: nat, goldIndex: nat, pitIndices: seq<nat>): Game
    requires Generation.ValidDraws(wumpusIndex, goldIndex, pitIndices)
  {
    UpdatePerceptions(Initial(Generation.GeneratedGrid(wumpusIndex, goldIndex, pitIndices)))
  }

  /** The six player actions, one per control button (app.js:93-136). */
  datatype Action = MoveForwardAction | TurnLeftAction | TurnRightAction | GrabAction | ShootAction | ClimbAction

  function Step(g: Game, a: Action): (r: Game)
    ensures Valid(g) ==> Valid(r)
  {
    match a
    case MoveForwardAction => MoveForward(g)
    case TurnLeftAction => TurnLeft(g)
    case TurnRightAction => TurnRight(g)
    case GrabAction => Grab(g)
    case ShootAction => Shoot(g)
    case ClimbAction => Climb(g)
  }

  /** The game after a sequence of player actions. */
  function Run(g: Game, actions: seq<Action>): (r: Game)
    ensures Valid(g) ==> Valid(r)
    decreases |actions|
  {
    if actions == [] then g else Run(Step(g, actions[0]), actions[1..])
  }

  // ---------------------------------------------------------------------
  // What the rules promise
  // ---------------------------------------------------------------------

  /** A won or lost game is frozen: no sequence of player actions changes any
      field; only a restart leaves it (app.js:150, 206, 218, 230, 250, 301). */
  lemma {:induction false} FinishedGameIsFrozen(g: Game, actions: seq<Action>)
    requires g.phase != Playing
    ensures Run(g, actions) == g
  {
    if actions != [] {
      assert Step(g, actions[0]) == g;
      FinishedGameIsFrozen(g, actions[1..]);
    }
  }

  /** A fresh game starts at the entrance facing right with score 0, one arrow,
      no gold, only the entrance visited, the wumpus alive, in a well-formed world. */
  lemma NewGameResetsEverything(wumpusIndex: nat, goldIndex: nat, pitIndices: seq<nat>)
    requires Generation.ValidDraws(wumpusIndex, goldIndex, pitIndices)
    ensures var g := NewGame(wumpusIndex, goldIndex, pitIndices);
      && Valid(g)
      && g.Here() == Start && g.facing == Right
      && g.score == 0 && g.arrows == 1 && !g.hasGold && g.phase == Playing
      && g.visited == {Start} && g.wumpusAlive
      && |WumpusCells(g.grid)| == 1 && |GoldCells(g.grid)| == 1 && |PitCells(g.grid)| == Generation.PitCount
      && WumpusCells(g.grid) !! GoldCells(g.grid) && WumpusCells(g.grid) !! PitCells(g.grid)
      && GoldCells(g.grid) !! PitCells(g.grid)
      && CellAt(g.grid, Start) == EmptyCell
      && g.percepts <= {Stench, Breeze}
  {
    Generation.GeneratedWorldIsWellFormed(wumpusIndex, goldIndex, pitIndices);
    var g0 := Initial(Generation.GeneratedGrid(wumpusIndex, goldIndex, pitIndices));
    assert g0.Here() == Start;
    NeighbourScan(g0, 4);
  }

  /** moveForward into a wall changes nothing but adding bump; a legal move
      costs one point, records the new cell, and a live wumpus or a pit there
      ends the game at a further cost of 1000 (app.js:157-197). */
  lemma MoveForwardOutcome(g: Game)
    requires Valid(g) && g.phase == Playing
    ensures var r := MoveForward(g);
      var target := Next(g.Here(), g.facing);
      var cell := CellAt(g.grid, target);
      var deadly := (cell.wumpus && g.wumpusAlive) || cell.pit;
      && Inside(r.Here())
      && r.facing == g.facing && r.arrows == g.arrows && r.hasGold == g.hasGold
      && r.grid == g.grid && r.wumpusAlive == g.wumpusAlive
      && (!Inside(target) ==>
            r.Here() == g.Here() && r.score == g.score && r.phase == Playing
            && r.visited == g.visited && r.percepts == g.percepts + {Bump})
      && (Inside(target) ==>
            r.Here() == target && r.visited == g.visited + {target}
            && r.score == g.score - 1 - (if deadly then 1000 else 0)
            && r.phase == (if deadly then Lost else Playing)
            && (deadly ==> r.percepts == g.percepts)
            && (!deadly ==> r == UpdatePerceptions(r.(percepts := g.percepts))))
  {
  }

  /** Two moves from the entrance into the wumpus: from (1,1) facing right with
      the wumpus at (3,1) and nothing at (2,1), the second move ends the game.
      Each move costs its point before the hazard is checked (app.js:175, 185),
      so the score is -1002. */
  lemma TwoStepsIntoTheWumpus(g: Game)
    requires Valid(g) && g.phase == Playing && g.Here() == Start && g.facing == Right && g.score == 0
    requires g.wumpusAlive && CellAt(g.grid, (3, 1)).wumpus
    requires !CellAt(g.grid, (2, 1)).pit && !CellAt(g.grid, (2, 1)).wumpus
    ensures MoveForward(MoveForward(g)).phase == Lost
    ensures MoveForward(MoveForward(g)).score == -1002
  {
    MoveForwardOutcome(g);
    assert Next(g.Here(), g.facing) == (2, 1);
    var g1 := MoveForward(g);
    MoveForwardOutcome(g1);
    assert Next(g1.Here(), g1.facing) == (3, 1);
  }

  /** Turns cost one point each and move only the heading; a left turn and a
      right turn undo each other (app.js:205-227). */
  lemma TurnsUndoEachOther(g: Game)
    requires g.phase == Playing
    ensures TurnLeft(g).facing == (g.facing + 3) % 4 && TurnLeft(g).score == g.score - 1
    ensures TurnRight(g).facing == (g.facing + 1) % 4 && TurnRight(g).score == g.score - 1
    ensures TurnLeft(g) == g.(facing := TurnLeft(g).facing, score := g.score - 1)
    ensures TurnRight(g) == g.(facing := TurnRight(g).facing, score := g.score - 1)
    ensures TurnRight(TurnLeft(g)) == g.(score := g.score - 2)
    ensures TurnLeft(TurnRight(g)) == g.(score := g.score - 2)
  {
  }

  /** Four turns the same way bring the heading back, for four points. */
  lemma FourTurnsComeBack(g: Game)
    requires g.phase == Playing
    ensures TurnRight(TurnRight(TurnRight(TurnRight(g)))) == g.(score := g.score - 4)
    ensures TurnLeft(TurnLeft(TurnLeft(TurnLeft(g)))) == g.(score := g.score - 4)
  {
    var r1 := TurnRight(g);
    var r2 := TurnRight(r1);
    var r3 := TurnRight(r2);
    var l1 := TurnLeft(g);
    var l2 := TurnLeft(l1);
    var l3 := TurnLeft(l2);
    assert TurnRight(r3).facing == g.facing && TurnLeft(l3).facing == g.facing by {
      if g.facing == Up {} else if g.facing == Right {} else if g.facing == Down {} else {}
    }
  }

  /** grab takes untaken gold from the player's cell and changes nothing else;
      otherwise it changes nothing, so a second grab is a no-op (app.js:229-247). */
  lemma GrabTakesGoldOnce(g: Game)
    requires g.phase == Playing
    ensures var r := Grab(g);
      && (CellAt(g.grid, g.Here()).gold && !g.hasGold ==>
            r.hasGold && !CellAt(r.grid, g.Here()).gold
            && GoldCells(r.grid) == GoldCells(g.grid) - {g.Here()}
            && WumpusCells(r.grid) == WumpusCells(g.grid) && PitCells(r.grid) == PitCells(g.grid)
            && r.grid == g.grid[g.Here() := CellAt(g.grid, g.Here()).(gold := false)]
            && r == g.(hasGold := true, grid := r.grid))
      && (!(CellAt(g.grid, g.Here()).gold && !g.hasGold) ==> r == g)
    ensures Grab(Grab(g)) == Grab(g)
  {
  }

  /** shoot with an empty quiver changes nothing (app.js:252-255). */
  lemma ShootWithoutArrowsChangesNothing(g: Game)
    requires g.arrows <= 0
    ensures Shoot(g) == g
  {
  }

  /** A shot spends the arrow and ten points, and kills the wumpus exactly when
      a live wumpus lies on the ray; then the wumpus leaves its cell and scream
      is heard. Position, heading, gold and phase stay (app.js:257-295). */
  lemma ShootOutcome(g: Game)
    requires Valid(g) && g.phase == Playing && g.arrows > 0
    ensures var r := Shoot(g);
      var killed := g.wumpusAlive && !r.wumpusAlive;
      && r.arrows == g.arrows - 1 && r.score == g.score - 10
      && r.Here() == g.Here() && r.facing == g.facing && r.hasGold == g.hasGold
      && r.phase == g.phase && r.visited == g.visited
      && (killed <==> g.wumpusAlive && exists k :: WumpusAt(g.grid, g.Here(), g.facing, k))
      && (killed ==> Scream in r.percepts && |WumpusCells(r.grid)| == |WumpusCells(g.grid)| - 1)
      && (!killed ==> r.wumpusAlive == g.wumpusAlive && r.grid == g.grid && r.percepts == g.percepts)
  {
    RayHitsIffWumpusInLine(g.grid, g.wumpusAlive, g.Here(), g.facing);
    var r := Shoot(g);
    match RayTarget(g.grid, g.wumpusAlive, g.Here(), g.facing)
    case None =>
    case Some(p) =>
      assert WumpusCells(r.grid) == WumpusCells(g.grid) - {p};
  }

  /** A dead wumpus stays dead: no later shot kills anything. */
  lemma DeadWumpusIsNeverShot(g: Game)
    requires !g.wumpusAlive
    ensures Shoot(g).grid == g.grid && !Shoot(g).wumpusAlive
  {
    match RayTarget(g.grid, g.wumpusAlive, g.Here(), g.facing)
    case None =>
    case Some(p) =>
  }

  /** The refresh scheduled after a kill (app.js:289-292) finds no stench any
      more but keeps the scream. */
  lemma RefreshAfterKillDropsStench(g: Game)
    requires g.phase == Playing && g.arrows > 0
    requires RayTarget(g.grid, g.wumpusAlive, g.Here(), g.facing).Some?
    ensures var r := UpdatePerceptions(Shoot(g)).percepts;
      Stench !in r && Scream in r
  {
    PerceptsAfterUpdate(Shoot(g));
  }

  /** climb wins, for 1000 points, exactly at the entrance with the gold;
      every other climb changes nothing (app.js:300-320). */
  lemma ClimbWinsOnlyWithGoldAtStart(g: Game)
    requires g.phase == Playing
    ensures Climb(g).phase == Won <==> g.Here() == Start && g.hasGold
    ensures Climb(g).phase == Won ==> Climb(g) == g.(phase := Won, score := g.score + 1000)
    ensures Climb(g).phase != Won ==> Climb(g) == g
  {
  }
}
