/** The pieces `featurize_state` builds a player's features from: the one-hot
    encodings of facing direction and held object, the closest-item feature
    (`make_closest_feature`), the pot block (`make_pot_feature`) and the wall
    bit. Each returns a fresh dictionary or array; none changes anything. */
module Encoders {
  import opened Overcooked
  import opened FeatureKeys
  import opened OrderedDicts

  /** The featurizer's dictionary: feature key to flat integer array. */
  type Features = Dict<Key, seq<int>>

  /** `np.zeros(n)`. */
  function Zeros(n: nat): (v: seq<int>)
  {
    seq(n, _ => 0)
  }

  /** Row `idx` of `np.eye(n)`. */
  function OneHot(n: nat, idx: nat): (v: seq<int>)
    requires idx < n
  {
    seq(n, j => if j == idx then 1 else 0)
  }

  /** Position of the first 1 in `v`: reads an index back from a one-hot row. */
  function FirstOne(v: seq<int>): (r: Option<nat>)
    ensures r.Some? ==> r.value < |v| && v[r.value] == 1
    ensures r.Some? ==> forall j :: 0 <= j < r.value ==> v[j] != 1
    ensures r.None? ==> forall j :: 0 <= j < |v| ==> v[j] != 1
  {
    if v == [] then None
    else if v[0] == 1 then Some(0)
    else
      match FirstOne(v[1..])
      case None => None
      case Some(j) => Some(j + 1)
  }

  /** Facing direction: length 4, a 1 at `DIRECTION_TO_INDEX[d]` and 0
      elsewhere, so reading the 1 back gives the direction. */
  function OrientationFeature(d: Direction): (v: seq<int>)
    ensures |v| == 4
    ensures forall j :: 0 <= j < 4 ==> (v[j] == 1 <==> j == DirectionIndex(d)) && (v[j] == 0 <==> j != DirectionIndex(d))
    ensures FirstOne(v).Some? && IndexToDirection[FirstOne(v).value] == d
  {
    var v := OneHot(4, DirectionIndex(d));
    assert v[DirectionIndex(d)] == 1;
    v
  }

  /** IDX_TO_OBJ. */
  const IdxToObj: seq<string> := ["onion", "soup", "dish", "tomato"]

  /** OBJ_TO_IDX[name]. */
  function ObjIndex(name: string): (j: nat)
    requires name in IdxToObj
    ensures j < |IdxToObj| && IdxToObj[j] == name
  {
    if name == IdxToObj[0] then 0
    else if name == IdxToObj[1] then 1
    else if name == IdxToObj[2] then 2
    else 3
  }

  /** Held object: zeros when nothing is held, a one-hot row at
      `OBJ_TO_IDX[name]` otherwise, and a KeyError for a name outside
      IDX_TO_OBJ. */
  function HeldObjectFeature(held: Option<ObjectState>): (r: Result<seq<int>>)
    ensures held.None? ==> r == Ok(Zeros(|IdxToObj|))
    ensures held.Some? ==> (r.Ok? <==> held.value.name in IdxToObj)
    ensures held.Some? && r.Err? ==> r.error == UnknownHeldObject(held.value.name)
    ensures r.Ok? ==> |r.value| == 4
    ensures r.Ok? && held.Some? ==>
      forall j :: 0 <= j < 4 ==> (r.value[j] == 1 <==> IdxToObj[j] == held.value.name) && (r.value[j] == 0 <==> IdxToObj[j] != held.value.name)
  {
    match held
    case None => Ok(Zeros(|IdxToObj|))
    case Some(o) =>
      if o.name in IdxToObj then Ok(OneHot(|IdxToObj|, ObjIndex(o.name)))
      else Err(UnknownHeldObject(o.name))
  }

  /** Reads the held object's name back from its encoding. */
  function HeldNameOf(v: seq<int>): string
  {
    match FirstOne(v)
    case None => "none"
    case Some(j) => if j < |IdxToObj| then IdxToObj[j] else "none"
  }

  /** Decoding the held-object feature gives back the name the featurizer
      compares items against. */
  lemma HeldObjectRoundTrip(p: Player)
    requires HeldObjectFeature(p.heldObject).Ok?
    ensures HeldNameOf(HeldObjectFeature(p.heldObject).value) == HeldName(p)
  {
    var v := HeldObjectFeature(p.heldObject).value;
    if p.heldObject.Some? {
      var j := ObjIndex(p.heldObject.value.name);
      assert v[j] == 1;
      assert FirstOne(v).Some?;
    } else {
      assert forall j :: 0 <= j < |v| ==> v[j] == 0;
    }
  }

  /** The object whose ingredients the soup feature counts: the held one when
      the player holds the item, otherwise whatever stands on the closest
      location found, if anything does. */
  function ClosestObject(env: Env, state: GameState, player: Player, item: Item, locations: seq<Pos>): Option<ObjectState>
  {
    if HeldName(player) == ItemName(item) then player.heldObject
    else
      var loc := env.closestLocation(player, locations).0;
      if loc.Some? && loc.value in state.objects then Some(state.objects[loc.value]) else None
  }

  /** `Counter(obj.ingredients)[ingredient]`, 0 without an object. */
  function IngredientCount(obj: Option<ObjectState>, ingredient: string): (n: nat)
    ensures obj.None? ==> n == 0
    ensures obj.Some? ==> n == multiset(obj.value.ingredients)[ingredient]
  {
    if obj.Some? then Count(obj.value.ingredients, ingredient) else 0
  }

  /** `make_closest_feature`: the offsets to the closest square of `item`,
      (0, 0) when the player already holds one; for soup, the onion and
      tomato counts of that soup follow. */
  function MakeClosestFeature(env: Env, state: GameState, idx: nat, player: Player, item: Item, locations: seq<Pos>): (r: Features)
    ensures Keys(r) == if item == Soup then [Key(idx, Closest(Soup)), Key(idx, SoupOnions), Key(idx, SoupTomatoes)]
                       else [Key(idx, Closest(item))]
    ensures HeldName(player) == ItemName(item) ==> r[0].1 == [0, 0]
    ensures HeldName(player) != ItemName(item) ==> r[0].1 == DeltaFeature(env.closestLocation(player, locations).1)
    ensures item == Soup ==>
      var obj := ClosestObject(env, state, player, item, locations);
      r[1].1 == [IngredientCount(obj, "onion")] && r[2].1 == [IngredientCount(obj, "tomato")]
    ensures |FlatValues(r)| == if item == Soup then 4 else 2
  {
    var deltas := if HeldName(player) == ItemName(item) then (0, 0) else env.closestLocation(player, locations).1;
    var first := [(Key(idx, Closest(item)), DeltaFeature(deltas))];
    if item == Soup then
      var obj := ClosestObject(env, state, player, item, locations);
      var counts := [(Key(idx, SoupOnions), [IngredientCount(obj, "onion")]), (Key(idx, SoupTomatoes), [IngredientCount(obj, "tomato")])];
      FlatValuesOfScalars(counts, [IngredientCount(obj, "onion"), IngredientCount(obj, "tomato")]);
      FlatValuesAppend(first, counts);
      first + counts
    else
      first
  }

  /** A player who holds the item gets the same feature whatever the
      closest-location query would answer: the query is not consulted. */
  lemma HeldItemSkipsLookup(env: Env, other: (Player, seq<Pos>) -> (Option<Pos>, Delta), state: GameState,
                            idx: nat, player: Player, item: Item, locations: seq<Pos>)
    requires HeldName(player) == ItemName(item)
    ensures MakeClosestFeature(env, state, idx, player, item, locations)
         == MakeClosestFeature(env.(closestLocation := other), state, idx, player, item, locations)
  {
  }

  /** The pot keys of pot `potIdx` of player `idx`, in insertion order. */
  function PotKeys(idx: nat, potIdx: nat): (ks: seq<Key>)
  {
    seq(|PotFields|, j requires 0 <= j < |PotFields| => Key(idx, Pot(potIdx, PotFields[j])))
  }

  function Bit(b: bool): int
  {
    if b then 1 else 0
  }

  /** Entries holding one scalar each flatten back to the scalars. */
  lemma {:induction false} FlatValuesOfScalars(d: Features, scalars: seq<int>)
    requires |d| == |scalars|
    requires forall j :: 0 <= j < |d| ==> d[j].1 == [scalars[j]]
    ensures FlatValues(d) == scalars
    decreases |d|
  {
    if d != [] {
      FlatValuesOfScalars(d[1..], scalars[1..]);
      assert scalars == [scalars[0]] + scalars[1..];
    }
  }

  /** The nine entries of one pot: eight one-element scalars, then the offsets. */
  function PotBlock(idx: nat, potIdx: nat, scalars: seq<int>, deltas: Delta): (r: Features)
    requires |scalars| == 8
    ensures Keys(r) == PotKeys(idx, potIdx) && DistinctKeys(r)
    ensures FlatValues(r) == scalars + DeltaFeature(deltas)
  {
    var head := seq(8, j requires 0 <= j < 8 => (Key(idx, Pot(potIdx, PotFields[j])), [scalars[j]]));
    var tail := [(Key(idx, Pot(potIdx, PotDelta)), DeltaFeature(deltas))];
    FlatValuesOfScalars(head, scalars);
    FlatValuesAppend(head, tail);
    head + tail
  }

  /** `make_pot_feature`: the nine keys of the pot, holding ten zeros when
      there is no pot; a pot that is neither empty nor holding a soup raises
      (the game state has no object there). `PotFeatureValues` states the
      numbers of a pot that is there. */
  function MakePotFeature(env: Env, state: GameState, idx: nat, player: Player, potIdx: nat, potLoc: Option<Pos>): (r: Result<Features>)
    ensures r.Ok? ==> Keys(r.value) == PotKeys(idx, potIdx) && DistinctKeys(r.value) && |FlatValues(r.value)| == 10
    ensures potLoc.None? ==> r.Ok? && FlatValues(r.value) == Zeros(10)
    ensures potLoc.Some? ==> (r.Ok? <==> potLoc.value in env.emptyPots || potLoc.value in state.objects)
    ensures potLoc.Some? && r.Err? ==> r.error == NoObjectAt(potLoc.value)
  {
    if potLoc.None? then
      Ok(PotBlock(idx, potIdx, Zeros(8), (0, 0)))
    else
      var loc := potLoc.value;
      var deltas := env.deltasToLocation(player, loc);
      var isEmpty := loc in env.emptyPots;
      var flags := [1, Bit(isEmpty), Bit(loc in env.fullPots), Bit(loc in env.cookingPots), Bit(loc in env.readyPots)];
      if isEmpty then
        Ok(PotBlock(idx, potIdx, flags + [0, 0, 0], deltas))
      else if loc !in state.objects then
        Err(NoObjectAt(loc))
      else
        var soup := state.objects[loc];
        var cookTime := if soup.isIdle then 0 else soup.cookTimeRemaining;
        Ok(PotBlock(idx, potIdx, flags + [Count(soup.ingredients, "onion"), Count(soup.ingredients, "tomato"), cookTime], deltas))
  }

  /** The ten numbers of a pot that is there: `exists` is 1, the four state
      bits are membership in the game's pot-state lists, the ingredient
      counts and cook time come from the soup unless the pot is empty (cook
      time 0 while the soup is idle, never negative), and the offsets to the
      pot close it. */
  lemma PotFeatureValues(env: Env, state: GameState, idx: nat, player: Player, potIdx: nat, loc: Pos)
    requires MakePotFeature(env, state, idx, player, potIdx, Some(loc)).Ok?
    ensures var v := FlatValues(MakePotFeature(env, state, idx, player, potIdx, Some(loc)).value);
      && v[0] == 1
      && v[1] == Bit(loc in env.emptyPots)
      && v[2] == Bit(loc in env.fullPots)
      && v[3] == Bit(loc in env.cookingPots)
      && v[4] == Bit(loc in env.readyPots)
      && (loc in env.emptyPots ==> v[5] == 0 && v[6] == 0 && v[7] == 0)
      && (loc !in env.emptyPots ==>
            var soup := state.objects[loc];
            && v[5] == multiset(soup.ingredients)["onion"]
            && v[6] == multiset(soup.ingredients)["tomato"]
            && v[7] == if soup.isIdle then 0 else soup.cookTimeRemaining)
      && v[7] >= 0
      && v[8..] == DeltaFeature(env.deltasToLocation(player, loc))
  {
  }

  /** One wall bit: 0 exactly when the adjacent terrain is floor, " ". */
  function WallBit(terrain: string): (v: seq<int>)
    ensures |v| == 1 && (v[0] == 0 <==> terrain == " ") && (v[0] == 1 <==> terrain != " ")
  {
    if terrain == " " then [0] else [1]
  }
}
