/**
  * The screens of an output laid out on a grid, and what that says of the edges
  * between them: apart from the code that decides it.
  */
module CrossingLayout {
  import opened Crossing

  datatype Cell = Cell(x: int, y: int)

  /** The cell `n` steps away. */
  function Away(c: Cell, d: Direction, n: int): Cell {
    match d
    case NoDirection => c
    case Left => Cell(c.x - n, c.y)
    case Right => Cell(c.x + n, c.y)
    case Top => Cell(c.x, c.y - n)
    case Bottom => Cell(c.x, c.y + n)
  }

  function Beside(c: Cell, d: Direction): Cell {
    Away(c, d, 1)
  }

  /** Screen `k` lies `k - 1` steps along the chain from the first. */
  function At(o: Output, k: int): Cell {
    Away(Cell(0, 0), o.chain, k - 1)
  }

  /** The cell beside screen `k` is off the line the chain runs on. */
  ghost predicate OffTheLine(o: Output, k: nat, d: Direction) {
    forall n: int :: At(o, n) != Beside(At(o, k), d)
  }

  /**
    * The border is left from the first screen, and from any screen when it lies
    * across the chain. An output whose screens have no chain counts as a column.
    */
  ghost predicate Leaves(o: Output, k: nat, d: Direction) {
    && d == o.border
    && (k == 1 || if o.chain == NoDirection then d == Left || d == Right else OffTheLine(o, k, d))
  }

  /** Screen `j` is the one beside screen `k`. */
  predicate Neighbour(o: Output, k: nat, d: Direction, j: nat) {
    1 <= j <= o.count && At(o, j) == Beside(At(o, k), d)
  }

  /** Where an edge leads from a screen: over the border, to the screen beside it, or nowhere. */
  ghost predicate Leads(o: Output, k: nat, d: Direction, to: Target) {
    && d != NoDirection && 1 <= k <= o.count
    && match to
       case Other => Leaves(o, k, d)
       case Screen(j) => !Leaves(o, k, d) && Neighbour(o, k, d, j)
  }

  lemma LineIs(o: Output, k: nat, d: Direction)
    requires o.chain != NoDirection && d != NoDirection
    ensures OffTheLine(o, k, d) <==> Horizontal(o.chain) != Horizontal(d)
  {
    if Horizontal(o.chain) == Horizontal(d) {
      var n: int := if d == o.chain then k + 1 else k - 1;
      assert At(o, n) == Beside(At(o, k), d);
    } else {
      forall n: int ensures At(o, n) != Beside(At(o, k), d) {
      }
    }
  }

  lemma NeighbourIs(o: Output, k: nat, d: Direction, j: nat)
    requires d != NoDirection && 1 <= k <= o.count
    ensures Neighbour(o, k, d, j) <==>
              1 <= j <= o.count && o.chain != NoDirection
              && ((d == o.chain && j == k + 1) || (d == Opposite(o.chain) && j + 1 == k))
  {
  }

  lemma LeavesIs(o: Output, k: nat, d: Direction)
    requires d != NoDirection
    ensures Leaves(o, k, d) <==> d == o.border && (k == 1 || Horizontal(o.chain) != Horizontal(o.border))
  {
    if o.chain != NoDirection {
      LineIs(o, k, d);
    }
  }

  /** The transition the code decides on is where the grid leads, both ways, for every layout, screen and direction. */
  lemma TransitionIs(o: Output, k: nat, d: Direction, to: Target)
    requires d != NoDirection && 1 <= k <= o.count
    ensures var t := TransitionFor(o, k, d);
            Leads(o, k, d, to) <==> match to case Other => t == ToOutput
                                             case Screen(j) => Chain(t) && j == NextScreen(t, k)
  {
    LeavesIs(o, k, d);
    if to.Screen? {
      NeighbourIs(o, k, d, to.n);
    }
  }

  /** And there is none exactly when it leads nowhere. */
  lemma NowhereIs(o: Output, k: nat, d: Direction)
    requires d != NoDirection && 1 <= k <= o.count
    ensures TransitionFor(o, k, d) == NoTransition <==> forall to :: !Leads(o, k, d, to)
  {
    var t := TransitionFor(o, k, d);
    forall to ensures Leads(o, k, d, to) ==> t != NoTransition {
      TransitionIs(o, k, d, to);
    }
    TransitionIs(o, k, d, Other);
    TransitionIs(o, k, d, Screen(NextScreen(t, k)));
  }

  /** Along the chain, in closed form. */
  predicate Along(o: Output, k: nat, d: Direction, j: nat) {
    && 1 <= j <= o.count && o.chain != NoDirection
    && ((d == o.chain && j == k + 1) || (d == Opposite(o.chain) && j + 1 == k))
    && !(d == o.border && k == 1)
  }

  lemma AlongIs(o: Output, k: nat, d: Direction, j: nat)
    requires d != NoDirection && 1 <= k <= o.count
    ensures Leads(o, k, d, Screen(j)) <==> Along(o, k, d, j)
  {
    NeighbourIs(o, k, d, j);
    LeavesIs(o, k, d);
  }

  lemma AlongBack(o: Output, k: nat, d: Direction, j: nat)
    requires d != NoDirection && 1 <= k <= o.count && Along(o, k, d, j)
    ensures Opposite(d) != NoDirection
    ensures Along(o, j, Opposite(d), k) <==> !(j == 1 && o.border == Opposite(d))
  {
  }

  /** Going along and then the other way comes back, except over a border in the chain's own direction at the first screen. */
  lemma ThereAndBack(o: Output, k: nat, d: Direction, j: nat)
    requires Leads(o, k, d, Screen(j))
    ensures Leads(o, j, Opposite(d), Screen(k)) <==> !(j == 1 && o.border == Opposite(d))
  {
    AlongIs(o, k, d, j);
    AlongBack(o, k, d, j);
    AlongIs(o, j, Opposite(d), k);
  }

  /** Every screen beyond the first is reached from the one before it, unless the border lies that way from the first. */
  lemma ChainIsWalked(o: Output, k: nat)
    requires o.chain != NoDirection && 1 <= k < o.count
    ensures Leads(o, k, o.chain, Screen(k + 1)) <==> !(k == 1 && o.border == o.chain)
  {
    AlongIs(o, k, o.chain, k + 1);
  }
}
