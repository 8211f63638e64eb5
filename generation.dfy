/** World generation (app.js:48-87): an empty grid, the list of candidate cells
    without the entrance, then the wumpus, the gold and up to three pits, each
    spliced out of that shrinking list at an index the caller supplies in place
    of `Math.random`. */
module Generation {
  import opened Board

  /** How many pits generateWorld tries to place (app.js:81). */
  const PitCount: nat := 3

  predicate NoDup(s: seq<Pos>) {
    forall i, j :: 0 <= i < j < |s| ==> s[i] != s[j]
  }

  /** The candidate list of app.js:58-65 in the order it is built: x in the
      outer loop, y in the inner one, the entrance skipped. Entry `k` is the
      `(k + 1)`-th cell of that column-by-column order. */
  function Candidates(): seq<Pos> {
    seq(GridSize * GridSize - 1, k => ((k + 1) / GridSize + 1, (k + 1) % GridSize + 1))
  }

  /** Where cell `(x, y)` sits in the column-by-column order, the entrance being 0. */
  function Rank(x: int, y: int): int {
    (x - 1) * GridSize + (y - 1)
  }

  lemma CandidateAt(x: int, y: int)
    requires Inside((x, y)) && (x, y) != Start
    ensures 0 <= Rank(x, y) - 1 < |Candidates()|
    ensures Candidates()[Rank(x, y) - 1] == (x, y)
  {
    var n := Rank(x, y);
    assert n / GridSize == x - 1 && n % GridSize == y - 1;
  }

  /** The candidates are the cells of the cave other than the entrance, each once. */
  lemma CandidatesAreTheOtherCells()
    ensures NoDup(Candidates())
    ensures forall p :: p in Candidates() <==> Inside(p) && p != Start
  {
    var cs := Candidates();
    forall i, j | 0 <= i < j < |cs| ensures cs[i] != cs[j] {
      var a, b := i + 1, j + 1;
      assert a == GridSize * (a / GridSize) + a % GridSize;
      assert b == GridSize * (b / GridSize) + b % GridSize;
    }
    forall p | Inside(p) && p != Start ensures p in cs {
      CandidateAt(p.0, p.1);
    }
    forall p | p in cs ensures Inside(p) && p != Start {
      var k :| 0 <= k < |cs| && cs[k] == p;
      var a := k + 1;
      assert a == GridSize * (a / GridSize) + a % GridSize;
    }
  }

  /** `s` without its `i`-th element: what `splice(i, 1)` leaves in the array. */
  function Remove(s: seq<Pos>, i: nat): (r: seq<Pos>)
    requires i < |s|
    ensures |r| == |s| - 1
  {
    s[..i] + s[i + 1..]
  }

  lemma RemoveTakesOnlyThatElement(s: seq<Pos>, i: nat)
    requires NoDup(s) && i < |s|
    ensures NoDup(Remove(s, i))
    ensures forall p :: p in Remove(s, i) <==> p in s && p != s[i]
  {
    var r := Remove(s, i);
    assert forall k :: 0 <= k < |r| ==> r[k] == if k < i then s[k] else s[k + 1];
    forall p | p in s && p != s[i] ensures p in r {
      var k :| 0 <= k < |s| && s[k] == p;
      if k < i { assert r[k] == p; } else { assert r[k - 1] == p; }
    }
  }

  /** Each index is below the length of the pool at the moment it is drawn,
      as `Math.floor(Math.random() * length)` is (app.js:68, 75, 82). */
  predicate PicksFit(n: nat, picks: seq<nat>) {
    forall j :: 0 <= j < |picks| && j < n ==> picks[j] < n - j
  }

  /** Draw without replacement: take `pool[picks[0]]`, splice it out, go on with
      the rest; stop when the picks or the pool run out (app.js:81). */
  function Draw(pool: seq<Pos>, picks: seq<nat>): seq<Pos>
    requires PicksFit(|pool|, picks)
    decreases |picks|
  {
    if picks == [] || pool == [] then []
    else
      assert forall j :: 0 <= j < |picks| - 1 ==> picks[1..][j] == picks[j + 1];
      [pool[picks[0]]] + Draw(Remove(pool, picks[0]), picks[1..])
  }

  /** Drawing from a pool without repeats gives distinct members of the pool,
      as many as there were picks unless the pool ran dry. */
  lemma {:induction false} DrawIsDistinct(pool: seq<Pos>, picks: seq<nat>)
    requires NoDup(pool) && PicksFit(|pool|, picks)
    ensures var drawn := Draw(pool, picks);
      && NoDup(drawn)
      && (forall p :: p in drawn ==> p in pool)
      && |drawn| == if |picks| <= |pool| then |picks| else |pool|
    decreases |picks|
  {
    if picks != [] && pool != [] {
      var rest := Remove(pool, picks[0]);
      assert forall j :: 0 <= j < |picks| - 1 ==> picks[1..][j] == picks[j + 1];
      RemoveTakesOnlyThatElement(pool, picks[0]);
      DrawIsDistinct(rest, picks[1..]);
      var tail := Draw(rest, picks[1..]);
      var drawn := Draw(pool, picks);
      assert drawn == [pool[picks[0]]] + tail;
      forall i, j | 0 <= i < j < |drawn| ensures drawn[i] != drawn[j] {
        if i == 0 { assert drawn[j] == tail[j - 1]; assert tail[j - 1] in tail; }
        else { assert drawn[i] == tail[i - 1] && drawn[j] == tail[j - 1]; }
      }
    }
  }

  /** Partway through generateWorld: `drawn` is what the first draws took,
      `available` the cells still free and `rest` the draws still to make. */
  ghost predicate Drawing(picks: seq<nat>, drawn: seq<Pos>, available: seq<Pos>, rest: seq<nat>) {
    && NoDup(available)
    && (forall p :: p in available ==> Inside(p))
    && PicksFit(|available|, rest)
    && PicksFit(|Candidates()|, picks)
    && Draw(Candidates(), picks) == drawn + Draw(available, rest)
  }

  lemma DrawingStarts(picks: seq<nat>)
    requires PicksFit(|Candidates()|, picks)
    ensures Drawing(picks, [], Candidates(), picks)
  {
    CandidatesAreTheOtherCells();
  }

  /** One draw: the cell at the next index leaves the free list for the drawn ones. */
  lemma DrawingStep(picks: seq<nat>, drawn: seq<Pos>, available: seq<Pos>, rest: seq<nat>)
    requires Drawing(picks, drawn, available, rest) && rest != [] && available != []
    ensures rest[0] < |available| && Inside(available[rest[0]])
    ensures Drawing(picks, drawn + [available[rest[0]]], Remove(available, rest[0]), rest[1..])
  {
    assert forall j :: 0 <= j < |rest| - 1 ==> rest[1..][j] == rest[j + 1];
    RemoveTakesOnlyThatElement(available, rest[0]);
  }

  /** Once the draws or the free cells run out, the drawn cells are the whole draw. */
  lemma DrawingEnds(picks: seq<nat>, drawn: seq<Pos>, available: seq<Pos>, rest: seq<nat>)
    requires Drawing(picks, drawn, available, rest) && (rest == [] || available == [])
    ensures drawn == Draw(Candidates(), picks)
  {
  }

  /** The grid after marking the draws made so far: the wumpus at the first,
      the gold at the second, a pit at every later one. */
  function Layout(drawn: seq<Pos>): (g: Grid)
    ensures FullGrid(g)
  {
    map p | p in AllCells() :: Cell(|drawn| > 0 && p == drawn[0],
                                    |drawn| > 1 && p == drawn[1],
                                    |drawn| > 2 && p in drawn[2..])
  }

  /** Drawing one more cell marks that cell and nothing else: the wumpus for
      the first draw, the gold for the second, a pit for every later one. */
  lemma {:induction false} LayoutGrows(drawn: seq<Pos>, p: Pos)
    requires Inside(p)
    ensures var before, after := Layout(drawn), Layout(drawn + [p]);
      p in before &&
      after == before[p := if |drawn| == 0 then before[p].(wumpus := true)
                           else if |drawn| == 1 then before[p].(gold := true)
                           else before[p].(pit := true)]
  {
    var before, after := Layout(drawn), Layout(drawn + [p]);
    var d' := drawn + [p];
    assert |drawn| >= 2 ==> d'[2..] == drawn[2..] + [p];
    var marked := before[p := if |drawn| == 0 then before[p].(wumpus := true)
                              else if |drawn| == 1 then before[p].(gold := true)
                              else before[p].(pit := true)];
    assert after.Keys == marked.Keys;
    forall q | q in after.Keys ensures after[q] == marked[q] {
      if |drawn| >= 1 { assert d'[0] == drawn[0]; }
      if |drawn| >= 2 { assert d'[1] == drawn[1]; }
    }
  }

  /** The random draws generateWorld makes: one index per placement, each
      below the length of the list it is drawn from. */
  predicate ValidDraws(wumpusIndex: nat, goldIndex: nat, pitIndices: seq<nat>) {
    |pitIndices| == PitCount &&
    PicksFit(|Candidates()|, [wumpusIndex, goldIndex] + pitIndices)
  }

  /** The world generateWorld builds from the given draws. */
  function GeneratedGrid(wumpusIndex: nat, goldIndex: nat, pitIndices: seq<nat>): Grid
    requires ValidDraws(wumpusIndex, goldIndex, pitIndices)
  {
    Layout(Draw(Candidates(), [wumpusIndex, goldIndex] + pitIndices))
  }

  /** Where a layout puts each feature: the wumpus and the gold on the first
      two draws, the pits on the later ones, nothing anywhere else. */
  lemma LayoutMarks(drawn: seq<Pos>)
    requires |drawn| >= 2 && forall p :: p in drawn ==> Inside(p)
    ensures WumpusCells(Layout(drawn)) == {drawn[0]}
    ensures GoldCells(Layout(drawn)) == {drawn[1]}
    ensures PitCells(Layout(drawn)) == set p | p in drawn[2..]
    ensures forall p :: p !in drawn ==> CellAt(Layout(drawn), p) == EmptyCell
  {
    var g := Layout(drawn);
    assert drawn[0] in drawn && drawn[1] in drawn;
    assert forall p :: p in drawn[2..] ==> p in drawn;
  }

  /** Three distinct cells make a set of three. */
  lemma ThreeDistinct(a: Pos, b: Pos, c: Pos)
    requires a != b && a != c && b != c
    ensures |{a, b, c}| == 3
  {
  }

  /** Whatever the draws, a generated world has every cell, exactly one wumpus,
      one gold and three pits, no cell holding two features, and an empty entrance. */
  lemma GeneratedWorldIsWellFormed(wumpusIndex: nat, goldIndex: nat, pitIndices: seq<nat>)
    requires ValidDraws(wumpusIndex, goldIndex, pitIndices)
    ensures var g := GeneratedGrid(wumpusIndex, goldIndex, pitIndices);
      && FullGrid(g)
      && |WumpusCells(g)| == 1 && |GoldCells(g)| == 1 && |PitCells(g)| == PitCount
      && WumpusCells(g) !! GoldCells(g)
      && WumpusCells(g) !! PitCells(g)
      && GoldCells(g) !! PitCells(g)
      && CellAt(g, Start) == EmptyCell
  {
    var drawn := Draw(Candidates(), [wumpusIndex, goldIndex] + pitIndices);
    CandidatesAreTheOtherCells();
    DrawIsDistinct(Candidates(), [wumpusIndex, goldIndex] + pitIndices);
    assert |drawn| == 5;
    LayoutMarks(drawn);
    var pits := set p | p in drawn[2..];
    assert pits == {drawn[2], drawn[3], drawn[4]};
    assert drawn[2] != drawn[3] && drawn[2] != drawn[4] && drawn[3] != drawn[4];
    ThreeDistinct(drawn[2], drawn[3], drawn[4]);
    assert drawn[0] != drawn[1] && drawn[0] !in pits && drawn[1] !in pits;
  }

  /** The empty grid of app.js:50-55, one empty record per cell. */
  method EmptyGrid() returns (g: Grid)
    ensures FullGrid(g)
    ensures forall p :: p in g ==> g[p] == EmptyCell
  {
    g := map[];
    for x := 1 to GridSize + 1
      invariant forall p :: p in g <==> Inside(p) && p.0 < x
      invariant forall p :: p in g ==> g[p] == EmptyCell
    {
      for y := 1 to GridSize + 1
        invariant forall p :: p in g <==> Inside(p) && (p.0 < x || (p.0 == x && p.1 < y))
        invariant forall p :: p in g ==> g[p] == EmptyCell
      {
        g := g[(x, y) := EmptyCell];
      }
    }
  }

  /** The candidate list of app.js:57-65, built by the same nested loops. */
  method AvailablePositions() returns (avail: seq<Pos>)
    ensures avail == Candidates()
  {
    avail := [];
    for x := 1 to GridSize + 1
      invariant avail == Candidates()[..Rank(x, 1) - (if x > 1 then 1 else 0)]
    {
      for y := 1 to GridSize + 1
        invariant avail == Candidates()[..Rank(x, y) - (if x > 1 || y > 1 then 1 else 0)]
      {
        if x != 1 || y != 1 {
          CandidateAt(x, y);
          avail := avail + [(x, y)];
        }
      }
    }
  }
}
