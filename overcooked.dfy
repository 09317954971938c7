/** The parts of the cooking game that the state featurizer reads: positions,
    players, objects on the grid, and the game queries it calls. The queries
    (shortest-path costs, pot-state lists, adjacent terrain, position
    differences) are not modelled; they are carried as given functions and
    lists in `Env`. */
module Overcooked {

  datatype Option<T> = None | Some(value: T)

  /** A grid square. */
  datatype Pos = Pos(x: int, y: int)

  /** A pair of offsets, as the game's distance queries return it. */
  type Delta = (int, int)

  /** `np.array` of a pair. */
  function DeltaFeature(d: Delta): (v: seq<int>)
  {
    [d.0, d.1]
  }

  /** `np.array` of a position. */
  function PosFeature(p: Pos): (v: seq<int>)
  {
    [p.x, p.y]
  }

  datatype Direction = North | South | East | West

  /** The game library's own table of directions; `Direction.DIRECTION_TO_INDEX`
      is its inverse. */
  const IndexToDirection: seq<Direction> := [North, South, East, West]

  function DirectionIndex(d: Direction): (r: nat)
    ensures r < |IndexToDirection| && IndexToDirection[r] == d
  {
    match d
    case North => 0
    case South => 1
    case East => 2
    case West => 3
  }

  /** An object on the grid or in a player's hands. `ingredients`, `isIdle`
      and `cookTimeRemaining` are only read for soups. */
  datatype ObjectState = ObjectState(
    name: string,
    position: Pos,
    ingredients: seq<string>,
    isIdle: bool,
    cookTimeRemaining: nat)

  /** A player; two players are equal when all three fields are. */
  datatype Player = Player(position: Pos, orientation: Direction, heldObject: Option<ObjectState>)

  datatype GameState = GameState(players: seq<Player>, objects: map<Pos, ObjectState>)

  /** The name the featurizer compares against: "none" when nothing is held. */
  function HeldName(p: Player): string
  {
    if p.heldObject.Some? then p.heldObject.value.name else "none"
  }

  /** What the featurizer asks of the game, fixed for one call of it. */
  datatype Env = Env(
    // layout queries: get_{onion,tomato,dish}_dispenser_locations, get_serving_locations, get_pot_locations
    onionDispensers: seq<Pos>,
    tomatoDispensers: seq<Pos>,
    dishDispensers: seq<Pos>,
    servingLocations: seq<Pos>,
    potLocations: seq<Pos>,
    // get_empty_counter_locations(state)
    emptyCounters: seq<Pos>,
    // get_counter_objects_dict(state), a dictionary that defaults to the empty list
    counterObjects: string -> seq<Pos>,
    // get_{empty,full,cooking,ready}_pots(get_pot_states(state))
    emptyPots: seq<Pos>,
    fullPots: seq<Pos>,
    cookingPots: seq<Pos>,
    readyPots: seq<Pos>,
    // get_deltas_to_closest_location(player, locations, mlam): the closest location, if any, and the offsets to it
    closestLocation: (Player, seq<Pos>) -> (Option<Pos>, Delta),
    // get_deltas_to_location(player, location)
    deltasToLocation: (Player, Pos) -> Delta,
    // the argmin of mlam.motion_planner.min_cost_to_feature(player.pos_and_or, pots, with_argmin=True)
    closestPot: (Player, seq<Pos>) -> Option<Pos>,
    // get_adjacent_features(player): (position, terrain character) per adjacent square
    adjacentFeatures: Player -> seq<(Pos, string)>,
    // pos_distance(p, q)
    posDistance: (Pos, Pos) -> Delta)

  /** The exceptions the featurizer can raise. */
  datatype Error =
    | UnknownHeldObject(name: string)  // KeyError from OBJ_TO_IDX
    | NoObjectAt(pos: Pos)             // get_object on a square without an object
    | NotInList(pos: Pos)              // list.remove of an absent element
    | EmptyConcatenate                 // np.concatenate of an empty list

  datatype Result<T> = Ok(value: T) | Err(error: Error)

  /** `collections.Counter(s)[x]`. */
  function Count(s: seq<string>, x: string): (c: nat)
    ensures c == multiset(s)[x]
  {
    if s == [] then 0
    else
      assert s == [s[0]] + s[1..];
      (if s[0] == x then 1 else 0) + Count(s[1..], x)
  }

  /** `l.remove(x)`: drops the first occurrence of `x`, raises when there is none. */
  function Remove(l: seq<Pos>, x: Pos): (r: Result<seq<Pos>>)
    ensures r.Ok? <==> x in l
  {
    if l == [] then Err(NotInList(x))
    else if l[0] == x then Ok(l[1..])
    else
      match Remove(l[1..], x)
      case Err(e) => Err(e)
      case Ok(rest) => Ok([l[0]] + rest)
  }

  /** Position of the first occurrence of `x`. */
  function FirstIndex(l: seq<Pos>, x: Pos): (j: nat)
    requires x in l
    ensures j < |l| && l[j] == x && x !in l[..j]
  {
    if l[0] == x then 0
    else
      var k := FirstIndex(l[1..], x);
      assert l[..k + 1] == [l[0]] + l[1..][..k];
      k + 1
  }

  /** `remove` drops the first occurrence of `x` and keeps the rest of the
      list in order. */
  lemma {:induction false} RemoveFirst(l: seq<Pos>, x: Pos)
    requires x in l
    ensures Remove(l, x).value == l[..FirstIndex(l, x)] + l[FirstIndex(l, x) + 1..]
  {
    if l[0] != x {
      RemoveFirst(l[1..], x);
      var k := FirstIndex(l[1..], x);
      var a, b := l[1..][..k], l[1..][k + 1..];
      assert l[..k + 1] == [l[0]] + a;
      assert l[k + 2..] == b;
      assert [l[0]] + (a + b) == [l[0]] + a + b;
    }
  }

  /** `remove` takes out exactly one occurrence of `x`, the first, and keeps
      the rest of the list in order. */
  lemma {:induction false} RemoveOne(l: seq<Pos>, x: Pos)
    requires x in l
    ensures Remove(l, x).value == l[..FirstIndex(l, x)] + l[FirstIndex(l, x) + 1..]
    ensures |Remove(l, x).value| == |l| - 1
    ensures multiset(Remove(l, x).value) == multiset(l) - multiset{x}
  {
    RemoveFirst(l, x);
    if l[0] == x {
      assert l == [x] + l[1..];
    } else {
      RemoveOne(l[1..], x);
      assert l == [l[0]] + l[1..];
    }
  }
}
