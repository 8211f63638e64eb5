/** The game object of app.js:2-568 without its rendering: the fields the
    game updates in place, and one method per game operation. Each method is
    proved to leave the fields as the matching function of module Rules says. */
module Wumpus {
  import opened Board
  import Generation
  import Rules

  class WumpusWorld {
    var playerX: int
    var playerY: int
    var facing: Dir
    var score: int
    var arrows: int
    var hasGold: bool
    var gameState: Rules.Phase
    var visitedCells: set<Pos>
    var currentPerceptions: set<Rules.Percept>
    var wumpusAlive: bool
    var grid: Grid

    /** All the fields, as one value. */
    ghost function Model(): Rules.Game
      reads this
    {
      Rules.Game(playerX, playerY, facing, score, arrows, hasGold, gameState,
                 visitedCells, currentPerceptions, wumpusAlive, grid)
    }

    ghost predicate Valid()
      reads this
    {
      Rules.Valid(Model())
    }

    /** The constructor (app.js:3-24): initializeGame, then updatePerceptions.
        The three draws stand for generateWorld's calls to `Math.random`. */
    constructor (wumpusIndex: nat, goldIndex: nat, pitIndices: seq<nat>)
      requires Generation.ValidDraws(wumpusIndex, goldIndex, pitIndices)
      ensures Model() == Rules.NewGame(wumpusIndex, goldIndex, pitIndices)
      ensures Valid()
    {
      new;
      InitializeGame(wumpusIndex, goldIndex, pitIndices);
      UpdatePerceptions();
    }

    /** initializeGame (app.js:26-46): reset the player and build a new world. */
    method InitializeGame(wumpusIndex: nat, goldIndex: nat, pitIndices: seq<nat>)
      requires Generation.ValidDraws(wumpusIndex, goldIndex, pitIndices)
      modifies this
      ensures Model() == Rules.Initial(Generation.GeneratedGrid(wumpusIndex, goldIndex, pitIndices))
      ensures Valid()
    {
      playerX := 1;
      playerY := 1;
      facing := Right;
      score := 0;
      arrows := 1;
      hasGold := false;
      gameState := Rules.Playing;
      visitedCells := {};
      visitedCells := visitedCells + {(playerX, playerY)};
      currentPerceptions := {};
      GenerateWorld(wumpusIndex, goldIndex, pitIndices);
    }

    /** generateWorld (app.js:48-87): the wumpus, the gold and the pits, each
        spliced out of the list of free cells at the index drawn for it. */
    method GenerateWorld(wumpusIndex: nat, goldIndex: nat, pitIndices: seq<nat>)
      requires Generation.ValidDraws(wumpusIndex, goldIndex, pitIndices)
      modifies this
      ensures grid == Generation.GeneratedGrid(wumpusIndex, goldIndex, pitIndices)
      ensures wumpusAlive
      ensures Model() == old(Model()).(grid := grid, wumpusAlive := true)
    {
      var empty := Generation.EmptyGrid();
      grid := empty;
      assert grid == Generation.Layout([]);
      var available := Generation.AvailablePositions();
      ghost var picks := [wumpusIndex, goldIndex] + pitIndices;
      ghost var drawn: seq<Pos> := [];
      ghost var rest := picks;
      Generation.DrawingStarts(picks);

      var wumpusPos := available[wumpusIndex];
      Generation.DrawingStep(picks, drawn, available, rest);
      Generation.LayoutGrows(drawn, wumpusPos);
      available := Generation.Remove(available, wumpusIndex);
      grid := grid[wumpusPos := grid[wumpusPos].(wumpus := true)];
      wumpusAlive := true;
      drawn, rest := drawn + [wumpusPos], rest[1..];
      assert rest[0] == goldIndex;

      var goldPos := available[goldIndex];
      Generation.DrawingStep(picks, drawn, available, rest);
      Generation.LayoutGrows(drawn, goldPos);
      available := Generation.Remove(available, goldIndex);
      grid := grid[goldPos := grid[goldPos].(gold := true)];
      drawn, rest := drawn + [goldPos], rest[1..];
      assert rest == pitIndices[0..];

      var i := 0;
      while i < Generation.PitCount && |available| > 0
        invariant 0 <= i <= Generation.PitCount
        invariant rest == pitIndices[i..] && |drawn| == 2 + i
        invariant Generation.Drawing(picks, drawn, available, rest)
        invariant grid == Generation.Layout(drawn)
        invariant Model() == old(Model()).(grid := grid, wumpusAlive := true)
      {
        var pitIndex := pitIndices[i];
        var pitPos := available[pitIndex];
        Generation.DrawingStep(picks, drawn, available, rest);
        Generation.LayoutGrows(drawn, pitPos);
        available := Generation.Remove(available, pitIndex);
        grid := grid[pitPos := grid[pitPos].(pit := true)];
        drawn, rest := drawn + [pitPos], rest[1..];
        i := i + 1;
      }
      Generation.DrawingEnds(picks, drawn, available, rest);
    }

    /** moveForward (app.js:149-203). */
    method MoveForward()
      requires Valid()
      modifies this
      ensures Model() == Rules.MoveForward(old(Model()))
      ensures Valid()
    {
      if gameState != Rules.Playing {
        return;
      }
      ghost var g := Model();
      var newX := playerX + DX(facing);
      var newY := playerY + DY(facing);
      ghost var target := (newX, newY);
      assert target == Next(g.Here(), g.facing);
      if !Inside((newX, newY)) {
        assert Rules.MoveForward(g) == g.(percepts := g.percepts + {Rules.Bump});
        AddPerception(Rules.Bump);
        return;
      }
      ghost var moved := g.(x := newX, y := newY, score := g.score - 1, visited := g.visited + {target});
      playerX := newX;
      playerY := newY;
      score := score - 1;
      visitedCells := visitedCells + {(playerX, playerY)};
      assert Model() == moved;
      var currentCell := grid[(playerX, playerY)];
      assert currentCell == CellAt(g.grid, target);
      if currentCell.wumpus && wumpusAlive {
        assert Rules.MoveForward(g) == moved.(phase := Rules.Lost, score := moved.score - 1000);
        gameState := Rules.Lost;
        score := score - 1000;
        return;
      }
      if currentCell.pit {
        assert Rules.MoveForward(g) == moved.(phase := Rules.Lost, score := moved.score - 1000);
        gameState := Rules.Lost;
        score := score - 1000;
        return;
      }
      assert Rules.MoveForward(g) == Rules.UpdatePerceptions(moved);
      UpdatePerceptions();
    }

    /** turnLeft (app.js:205-215). */
    method TurnLeft()
      requires Valid()
      modifies this
      ensures Model() == Rules.TurnLeft(old(Model()))
      ensures Valid()
    {
      if gameState != Rules.Playing {
        return;
      }
      facing := (facing + 3) % 4;
      score := score - 1;
    }

    /** turnRight (app.js:217-227). */
    method TurnRight()
      requires Valid()
      modifies this
      ensures Model() == Rules.TurnRight(old(Model()))
      ensures Valid()
    {
      if gameState != Rules.Playing {
        return;
      }
      facing := (facing + 1) % 4;
      score := score - 1;
    }

    /** grab (app.js:229-247); the two refusals only differ in their message. */
    method Grab()
      requires Valid()
      modifies this
      ensures Model() == Rules.Grab(old(Model()))
      ensures Valid()
    {
      if gameState != Rules.Playing {
        return;
      }
      var currentCell := grid[(playerX, playerY)];
      if currentCell.gold && !hasGold {
        hasGold := true;
        grid := grid[(playerX, playerY) := currentCell.(gold := false)];
      }
    }

    /** shoot (app.js:249-298): the arrow flies cell by cell until it leaves
        the cave or enters the cell of the live wumpus. */
    method Shoot()
      requires Valid()
      modifies this
      ensures Model() == Rules.Shoot(old(Model()))
      ensures Valid()
    {
      if gameState != Rules.Playing {
        return;
      }
      if arrows <= 0 {
        return;
      }
      ghost var g := Model();
      ghost var target := Rules.RayTarget(g.grid, g.wumpusAlive, g.Here(), g.facing);
      arrows := arrows - 1;
      score := score - 10;
      ghost var fired := Model();
      assert fired == g.(arrows := g.arrows - 1, score := g.score - 10);
      var dx, dy := DX(facing), DY(facing);
      var arrowX, arrowY := playerX, playerY;
      var hit := false;
      while !hit
        invariant Inside((arrowX, arrowY))
        invariant Rules.RayTarget(g.grid, g.wumpusAlive, (arrowX, arrowY), g.facing) == target
        decreases Reach((arrowX, arrowY), g.facing)
      {
        ghost var from := (arrowX, arrowY);
        arrowX := arrowX + dx;
        arrowY := arrowY + dy;
        assert (arrowX, arrowY) == Next(from, g.facing);
        if !Inside((arrowX, arrowY)) {
          hit := true;
          Rules.ShootMisses(g);
          break;
        }
        var cell := grid[(arrowX, arrowY)];
        assert cell == CellAt(g.grid, (arrowX, arrowY));
        if cell.wumpus && wumpusAlive {
          assert target == Some((arrowX, arrowY));
          Rules.ShootKills(g, (arrowX, arrowY));
          hit := true;
          KillWumpus(arrowX, arrowY);
          break;
        }
      }
    }

    /** The kill branch of shoot (app.js:280-294): the wumpus dies and leaves
        the cell the arrow reached, and the scream is heard. */
    method KillWumpus(x: int, y: int)
      requires Inside((x, y)) && (x, y) in grid
      modifies this
      ensures var fired := old(Model());
        var killed := fired.(wumpusAlive := false, grid := fired.grid[(x, y) := CellAt(fired.grid, (x, y)).(wumpus := false)]);
        Model() == killed.(percepts := killed.percepts + {Rules.Scream})
    {
      var cell := grid[(x, y)];
      wumpusAlive := false;
      grid := grid[(x, y) := cell.(wumpus := false)];
      AddPerception(Rules.Scream);
    }

    /** climb (app.js:300-320); the two refusals only differ in their message. */
    method Climb()
      requires Valid()
      modifies this
      ensures Model() == Rules.Climb(old(Model()))
      ensures Valid()
    {
      if gameState != Rules.Playing {
        return;
      }
      if playerX != 1 || playerY != 1 {
        return;
      }
      if !hasGold {
        return;
      }
      gameState := Rules.Won;
      score := score + 1000;
    }

    /** updatePerceptions (app.js:322-360): clear, then glitter from the
        player's cell and stench and breeze from the four neighbours. */
    method UpdatePerceptions()
      requires Valid()
      modifies this
      ensures Model() == Rules.UpdatePerceptions(old(Model()))
      ensures Valid()
    {
      ghost var g := Model();
      ClearPerceptions();
      var currentCell := grid[(playerX, playerY)];
      if currentCell.gold {
        AddPerception(Rules.Glitter);
      }
      ghost var base := currentPerceptions;
      assert base == Rules.ClearPerceptions(g.percepts) + (if CellAt(g.grid, g.Here()).gold then {Rules.Glitter} else {});
      for direction := 0 to 4
        invariant Model() == g.(percepts := currentPerceptions)
        invariant currentPerceptions == base + Rules.NeighbourPercepts(g, direction)
      {
        Rules.ScanStep(g, direction, base);
        Rules.SignalsIgnorePercepts(g, currentPerceptions, direction);
        SenseNeighbour(direction);
      }
    }

    /** One pass of the loop at app.js:334-357: stench and breeze from the
        neighbour along `direction`, if it is inside the cave. */
    method SenseNeighbour(direction: Dir)
      requires Valid()
      modifies this
      ensures Model() == old(Model()).(percepts := old(currentPerceptions) + Rules.NeighbourSignals(old(Model()), direction))
      ensures Valid()
    {
      var adjX := playerX + DX(direction);
      var adjY := playerY + DY(direction);
      ghost var g := Model();
      var adjCell := if Inside((adjX, adjY)) then grid[(adjX, adjY)] else EmptyCell;
      Rules.AddingSignals(g, direction, adjCell, currentPerceptions);
      if !Inside((adjX, adjY)) {
        return;
      }
      if adjCell.wumpus && wumpusAlive {
        AddPerception(Rules.Stench);
      }
      if adjCell.pit {
        AddPerception(Rules.Breeze);
      }
    }

    /** addPerception (app.js:362-373), without the timer it schedules for
        bump and scream: that timer is ExpirePerception. */
    method AddPerception(perception: Rules.Percept)
      modifies this
      ensures currentPerceptions == old(currentPerceptions) + {perception}
      ensures Model() == old(Model()).(percepts := currentPerceptions)
    {
      currentPerceptions := currentPerceptions + {perception};
    }

    /** clearPerceptions (app.js:375-382): keep only a pending scream. */
    method ClearPerceptions()
      modifies this
      ensures currentPerceptions == Rules.ClearPerceptions(old(currentPerceptions))
      ensures Model() == old(Model()).(percepts := currentPerceptions)
    {
      var hasScream := Rules.Scream in currentPerceptions;
      currentPerceptions := {};
      if hasScream {
        currentPerceptions := currentPerceptions + {Rules.Scream};
      }
    }

    /** The callback addPerception schedules two seconds after adding bump or
        scream (app.js:368-371); it runs whatever the phase. */
    method ExpirePerception(perception: Rules.Percept)
      requires perception == Rules.Bump || perception == Rules.Scream
      modifies this
      ensures Model() == Rules.ExpirePerception(old(Model()), perception)
    {
      currentPerceptions := currentPerceptions - {perception};
    }

    /** restartGame (app.js:558-568): a fresh game on a fresh world. */
    method RestartGame(wumpusIndex: nat, goldIndex: nat, pitIndices: seq<nat>)
      requires Generation.ValidDraws(wumpusIndex, goldIndex, pitIndices)
      modifies this
      ensures Model() == Rules.NewGame(wumpusIndex, goldIndex, pitIndices)
      ensures Valid()
    {
      InitializeGame(wumpusIndex, goldIndex, pitIndices);
      UpdatePerceptions();
    }
  }
}
