/** One player's features: what the body of the first `for i, player` loop of
    `featurize_state` inserts into `all_features`. The functions give the
    entries as the doc-comment lays them out; `AddPlayerFeatures` is the loop
    body itself, updating the dictionary entry by entry, and is proved to
    append exactly those entries. */
module PlayerFeatures {
  import opened Overcooked
  import opened FeatureKeys
  import opened OrderedDicts
  import opened Encoders

  /** The squares searched for each item. */
  function ItemLocations(env: Env, item: Item): seq<Pos>
  {
    match item
    case Onion => env.onionDispensers + env.counterObjects("onion")
    case Tomato => env.tomatoDispensers + env.counterObjects("tomato")
    case Dish => env.dishDispensers + env.counterObjects("dish")
    case Soup => env.counterObjects("soup")
    case Serving => env.servingLocations
    case EmptyCounter => env.emptyCounters
  }

  function ClosestFeature(env: Env, state: GameState, i: nat, p: Player, item: Item): Features
  {
    MakeClosestFeature(env, state, i, p, item, ItemLocations(env, item))
  }

  lemma ClosestFeatureShape(env: Env, state: GameState, i: nat, p: Player, item: Item)
    ensures var r := ClosestFeature(env, state, i, p, item);
      OwnedBy(r, i) && |FlatValues(r)| == if item == Soup then 4 else 2
  {
    var r := ClosestFeature(env, state, i, p, item);
    assert forall j :: 0 <= j < |r| ==> r[j].0 == Keys(r)[j];
  }

  /** Every key of `d` is a key of player i. */
  ghost predicate OwnedBy(d: Features, i: nat)
  {
    forall j :: 0 <= j < |d| ==> d[j].0.player == i
  }

  lemma OwnedByAppend(a: Features, b: Features, i: nat)
    requires OwnedBy(a, i) && OwnedBy(b, i)
    ensures OwnedBy(a + b, i)
  {
  }

  /** The six closest-item features, in the order the source computes them. */
  function ClosestFeatures(env: Env, state: GameState, i: nat, p: Player): Features
  {
    ClosestFeature(env, state, i, p, Onion) + ClosestFeature(env, state, i, p, Tomato)
    + ClosestFeature(env, state, i, p, Dish) + ClosestFeature(env, state, i, p, Soup)
    + ClosestFeature(env, state, i, p, Serving) + ClosestFeature(env, state, i, p, EmptyCounter)
  }

  /** Fourteen numbers (two per item, two more for the soup's ingredients),
      all under player i's keys. */
  lemma ClosestFeaturesShape(env: Env, state: GameState, i: nat, p: Player)
    ensures |FlatValues(ClosestFeatures(env, state, i, p))| == 14 && OwnedBy(ClosestFeatures(env, state, i, p), i)
  {
    var a, b, c := ClosestFeature(env, state, i, p, Onion), ClosestFeature(env, state, i, p, Tomato), ClosestFeature(env, state, i, p, Dish);
    var d, e, f := ClosestFeature(env, state, i, p, Soup), ClosestFeature(env, state, i, p, Serving), ClosestFeature(env, state, i, p, EmptyCounter);
    ClosestFeatureShape(env, state, i, p, Onion);
    ClosestFeatureShape(env, state, i, p, Tomato);
    ClosestFeatureShape(env, state, i, p, Dish);
    ClosestFeatureShape(env, state, i, p, Soup);
    ClosestFeatureShape(env, state, i, p, Serving);
    ClosestFeatureShape(env, state, i, p, EmptyCounter);
    FlatValuesAppend(a, b);
    OwnedByAppend(a, b, i);
    FlatValuesAppend(a + b, c);
    OwnedByAppend(a + b, c, i);
    FlatValuesAppend(a + b + c, d);
    OwnedByAppend(a + b + c, d, i);
    FlatValuesAppend(a + b + c + d, e);
    OwnedByAppend(a + b + c + d, e, i);
    FlatValuesAppend(a + b + c + d + e, f);
    OwnedByAppend(a + b + c + d + e, f, i);
  }

  /** Facing direction, held object and the closest-item features, or the
      KeyError of an unknown held object. */
  function HeadEntries(env: Env, state: GameState, i: nat, p: Player): Result<Features>
  {
    match HeldObjectFeature(p.heldObject)
    case Err(e) => Err(e)
    case Ok(objs) =>
      Ok([(Key(i, Orientation), OrientationFeature(p.orientation)), (Key(i, Objs), objs)] + ClosestFeatures(env, state, i, p))
  }

  /** 22 numbers under player i's keys, or the error of the held object. */
  lemma HeadEntriesShape(env: Env, state: GameState, i: nat, p: Player)
    ensures var r := HeadEntries(env, state, i, p);
      && (r.Err? <==> HeldObjectFeature(p.heldObject).Err?)
      && (r.Ok? ==> |FlatValues(r.value)| == 22 && OwnedBy(r.value, i))
  {
    if HeldObjectFeature(p.heldObject).Ok? {
      var c := ClosestFeatures(env, state, i, p);
      var h := [(Key(i, Orientation), OrientationFeature(p.orientation)), (Key(i, Objs), HeldObjectFeature(p.heldObject).value)];
      ClosestFeaturesShape(env, state, i, p);
      FlatValuesAppend(h, c);
      assert FlatValues(h) == OrientationFeature(p.orientation) + FlatValues(h[1..]);
      OwnedByAppend(h, c, i);
    }
  }

  lemma HeadEntriesOk(env: Env, state: GameState, i: nat, p: Player, objs: seq<int>)
    requires HeldObjectFeature(p.heldObject) == Ok(objs)
    ensures HeadEntries(env, state, i, p)
         == Ok([(Key(i, Orientation), OrientationFeature(p.orientation)), (Key(i, Objs), objs)] + ClosestFeatures(env, state, i, p))
  {
  }

  /** `x` followed by the entries of `r`, or the error of `r`. */
  function Extend(x: Features, r: Result<Features>): Result<Features>
  {
    match r
    case Ok(v) => Ok(x + v)
    case Err(e) => Err(e)
  }

  lemma ExtendAssociates(x: Features, y: Features, r: Result<Features>)
    ensures Extend(x, Extend(y, r)) == Extend(x + y, r)
    ensures Extend([], r) == r
  {
    if r.Ok? {
      assert x + (y + r.value) == x + y + r.value;
      assert [] + r.value == r.value;
    }
  }

  /** The closest-pot loop from iteration `potIdx` to `numPots`, `pots` being
      what is left of the copy of the layout's pot list: each iteration asks
      for the closest remaining pot, encodes it (or the absent pot), and
      removes a found pot from the copy. */
  function PotLoop(env: Env, state: GameState, i: nat, p: Player, pots: seq<Pos>, potIdx: nat, numPots: nat): Result<Features>
    decreases numPots - potIdx
  {
    if potIdx >= numPots then Ok([])
    else
      var found := env.closestPot(p, pots);
      match MakePotFeature(env, state, i, p, potIdx, found)
      case Err(e) => Err(e)
      case Ok(block) =>
        var left := if found.None? then Ok(pots) else Remove(pots, found.value);
        match left
        case Err(e) => Err(e)
        case Ok(pots') => Extend(block, PotLoop(env, state, i, p, pots', potIdx + 1, numPots))
  }

  /** One wall bit per adjacent square, in the order the game lists them. */
  function WallEntries(i: nat, adjacent: seq<(Pos, string)>): Features
  {
    seq(|adjacent|, d requires 0 <= d < |adjacent| => (Key(i, Wall(d)), WallBit(adjacent[d].1)))
  }

  /** Everything the first loop inserts for player i, in insertion order. */
  function PlayerEntries(env: Env, state: GameState, numPots: nat, i: nat, p: Player): Result<Features>
  {
    match HeadEntries(env, state, i, p)
    case Err(e) => Err(e)
    case Ok(head) =>
      match PotLoop(env, state, i, p, env.potLocations, 0, numPots)
      case Err(e) => Err(e)
      case Ok(pots) => Ok(head + pots + WallEntries(i, env.adjacentFeatures(p)))
  }

  // ---------------------------------------------------------------------
  // The closest-pot loop: which pots it finds.

  /** No repeated square. */
  ghost predicate NoDuplicates(l: seq<Pos>)
  {
    forall x | x in l :: multiset(l)[x] == 1
  }

  function PrependSlot(s: Option<Pos>, r: Result<seq<Option<Pos>>>): Result<seq<Option<Pos>>>
  {
    match r
    case Ok(v) => Ok([s] + v)
    case Err(e) => Err(e)
  }

  /** The pots the loop finds, slot by slot (None where none is found), over
      `count` iterations starting from the pot list `pots`. */
  function PotSlots(env: Env, p: Player, pots: seq<Pos>, count: nat): Result<seq<Option<Pos>>>
    decreases count
  {
    if count == 0 then Ok([])
    else
      var found := env.closestPot(p, pots);
      if found.None? then PrependSlot(None, PotSlots(env, p, pots, count - 1))
      else
        match Remove(pots, found.value)
        case Err(e) => Err(e)
        case Ok(left) => PrependSlot(found, PotSlots(env, p, left, count - 1))
  }

  /** The pot blocks for the given slots, numbered from `potIdx`. */
  function PotBlocks(env: Env, state: GameState, i: nat, p: Player, slots: seq<Option<Pos>>, potIdx: nat): Result<Features>
  {
    if slots == [] then Ok([])
    else
      match MakePotFeature(env, state, i, p, potIdx, slots[0])
      case Err(e) => Err(e)
      case Ok(block) => Extend(block, PotBlocks(env, state, i, p, slots[1..], potIdx + 1))
  }

  /** The loop's output is one pot block per slot found. */
  lemma {:induction false} PotLoopIsBlocksOfSlots(env: Env, state: GameState, i: nat, p: Player, pots: seq<Pos>, potIdx: nat, numPots: nat)
    requires potIdx <= numPots
    requires PotLoop(env, state, i, p, pots, potIdx, numPots).Ok?
    ensures PotSlots(env, p, pots, numPots - potIdx).Ok?
    ensures PotBlocks(env, state, i, p, PotSlots(env, p, pots, numPots - potIdx).value, potIdx)
         == PotLoop(env, state, i, p, pots, potIdx, numPots)
    decreases numPots - potIdx
  {
    if potIdx < numPots {
      var found := env.closestPot(p, pots);
      var left := if found.None? then pots else Remove(pots, found.value).value;
      PotLoopIsBlocksOfSlots(env, state, i, p, left, potIdx + 1, numPots);
      var rest := PotSlots(env, p, left, numPots - potIdx - 1).value;
      assert PotSlots(env, p, pots, numPots - potIdx) == Ok([found] + rest);
      assert ([found] + rest)[1..] == rest;
    }
  }

  function NoSlots(count: nat): seq<Option<Pos>>
  {
    seq(count, _ => None)
  }

  /** With no pot found among `pots`, none is found in any later iteration:
      the list is not changed, so the query gives the same answer. */
  lemma {:induction false} NoPotStaysNoPot(env: Env, p: Player, pots: seq<Pos>, count: nat)
    requires env.closestPot(p, pots).None?
    ensures PotSlots(env, p, pots, count) == Ok(NoSlots(count))
  {
    if count > 0 {
      NoPotStaysNoPot(env, p, pots, count - 1);
      assert PotSlots(env, p, pots, count) == PrependSlot(None, PotSlots(env, p, pots, count - 1));
      assert [None] + NoSlots(count - 1) == NoSlots(count);
    } else {
      assert NoSlots(0) == [];
    }
  }

  /** What `list.remove` leaves: a part of the list, without the removed
      element when the list had no repeats, and again without repeats. */
  lemma RemoveShrinks(l: seq<Pos>, x: Pos)
    requires Remove(l, x).Ok?
    ensures forall y | y in Remove(l, x).value :: y in l
    ensures NoDuplicates(l) ==> x !in Remove(l, x).value && NoDuplicates(Remove(l, x).value)
  {
    var left := Remove(l, x).value;
    RemoveOne(l, x);
    forall y | y in left ensures y in l {
      assert multiset(left)[y] > 0;
    }
    if NoDuplicates(l) {
      assert multiset(l)[x] == 1;
      forall y | y in left ensures multiset(left)[y] == 1 {
        assert y in l;
      }
    }
  }

  /** The loop fills exactly `count` slots. */
  lemma {:induction false} PotSlotsLength(env: Env, p: Player, pots: seq<Pos>, count: nat)
    requires PotSlots(env, p, pots, count).Ok?
    ensures |PotSlots(env, p, pots, count).value| == count
    decreases count
  {
    if count > 0 {
      var found := env.closestPot(p, pots);
      if found.None? {
        PotSlotsLength(env, p, pots, count - 1);
      } else {
        var left := Remove(pots, found.value).value;
        PotSlotsLength(env, p, left, count - 1);
      }
    }
  }

  /** Every pot found is one of the pots searched. */
  lemma {:induction false} PotSlotsFromList(env: Env, p: Player, pots: seq<Pos>, count: nat)
    requires PotSlots(env, p, pots, count).Ok?
    ensures var s := PotSlots(env, p, pots, count).value;
      forall j :: 0 <= j < |s| && s[j].Some? ==> s[j].value in pots
    decreases count
  {
    if count > 0 {
      var found := env.closestPot(p, pots);
      if found.None? {
        NoPotStaysNoPot(env, p, pots, count);
      } else {
        var left := Remove(pots, found.value).value;
        PotSlotsFromList(env, p, left, count - 1);
        RemoveShrinks(pots, found.value);
        assert PotSlots(env, p, pots, count).value == [found] + PotSlots(env, p, left, count - 1).value;
      }
    }
  }

  /** When the layout lists each pot once, no pot is found twice: the loop
      removes what it finds. */
  lemma {:induction false} PotSlotsDistinct(env: Env, p: Player, pots: seq<Pos>, count: nat)
    requires PotSlots(env, p, pots, count).Ok? && NoDuplicates(pots)
    ensures var s := PotSlots(env, p, pots, count).value;
      forall j, l :: 0 <= j < l < |s| && s[j].Some? && s[l].Some? ==> s[j].value != s[l].value
    decreases count
  {
    if count > 0 {
      var found := env.closestPot(p, pots);
      if found.None? {
        NoPotStaysNoPot(env, p, pots, count);
      } else {
        var left := Remove(pots, found.value).value;
        RemoveShrinks(pots, found.value);
        PotSlotsDistinct(env, p, left, count - 1);
        PotSlotsFromList(env, p, left, count - 1);
        var rest := PotSlots(env, p, left, count - 1).value;
        var s := PotSlots(env, p, pots, count).value;
        assert s == [found] + rest;
        forall j, l | 0 <= j < l < |s| && s[j].Some? && s[l].Some? ensures s[j].value != s[l].value {
          assert s[l] == rest[l - 1];
          if j > 0 {
            assert s[j] == rest[j - 1];
          }
        }
      }
    }
  }

  /** Once no pot is found, no pot is found in any later iteration. */
  lemma {:induction false} PotSlotsNoneStays(env: Env, p: Player, pots: seq<Pos>, count: nat)
    requires PotSlots(env, p, pots, count).Ok?
    ensures var s := PotSlots(env, p, pots, count).value;
      forall j, l :: 0 <= j <= l < |s| && s[j].None? ==> s[l].None?
    decreases count
  {
    if count > 0 {
      var found := env.closestPot(p, pots);
      if found.None? {
        NoPotStaysNoPot(env, p, pots, count);
      } else {
        var left := Remove(pots, found.value).value;
        PotSlotsNoneStays(env, p, left, count - 1);
        var rest := PotSlots(env, p, left, count - 1).value;
        var s := PotSlots(env, p, pots, count).value;
        assert s == [found] + rest;
        forall j, l | 0 <= j <= l < |s| && s[j].None? ensures s[l].None? {
          assert j > 0;
          assert s[j] == rest[j - 1] && s[l] == rest[l - 1];
        }
      }
    }
  }

  // ---------------------------------------------------------------------
  // Shape of one player's entries.

  lemma {:induction false} PotLoopShape(env: Env, state: GameState, i: nat, p: Player, pots: seq<Pos>, potIdx: nat, numPots: nat)
    requires potIdx <= numPots
    requires PotLoop(env, state, i, p, pots, potIdx, numPots).Ok?
    ensures var d := PotLoop(env, state, i, p, pots, potIdx, numPots).value;
      |FlatValues(d)| == 10 * (numPots - potIdx) && OwnedBy(d, i)
    decreases numPots - potIdx
  {
    if potIdx < numPots {
      var found := env.closestPot(p, pots);
      var block := MakePotFeature(env, state, i, p, potIdx, found).value;
      var left := if found.None? then pots else Remove(pots, found.value).value;
      PotLoopShape(env, state, i, p, left, potIdx + 1, numPots);
      var rest := PotLoop(env, state, i, p, left, potIdx + 1, numPots).value;
      FlatValuesAppend(block, rest);
      assert Keys(block) == PotKeys(i, potIdx);
      assert forall j :: 0 <= j < |block| ==> block[j].0 == Keys(block)[j];
    }
  }

  /** The numbers of the l-th block are those of the pot feature for slot l. */
  lemma {:induction false} PotBlocksBlock(env: Env, state: GameState, i: nat, p: Player, slots: seq<Option<Pos>>, potIdx: nat, l: nat)
    requires PotBlocks(env, state, i, p, slots, potIdx).Ok? && l < |slots|
    ensures MakePotFeature(env, state, i, p, potIdx + l, slots[l]).Ok?
    ensures var v := FlatValues(PotBlocks(env, state, i, p, slots, potIdx).value);
      10 * l + 10 <= |v|
      && v[10 * l..10 * l + 10] == FlatValues(MakePotFeature(env, state, i, p, potIdx + l, slots[l]).value)
    decreases l
  {
    var block := MakePotFeature(env, state, i, p, potIdx, slots[0]).value;
    var rest := PotBlocks(env, state, i, p, slots[1..], potIdx + 1).value;
    FlatValuesAppend(block, rest);
    var v := FlatValues(block) + FlatValues(rest);
    if l > 0 {
      PotBlocksBlock(env, state, i, p, slots[1..], potIdx + 1, l - 1);
      assert slots[1..][l - 1] == slots[l];
      assert v[10 * l..10 * l + 10] == FlatValues(rest)[10 * (l - 1)..10 * (l - 1) + 10];
    }
  }

  /** Once the loop finds no pot, this slot and every later one encode as
      ten zeros. */
  lemma PotLoopZerosAfterNone(env: Env, state: GameState, i: nat, p: Player, pots: seq<Pos>, numPots: nat)
    requires PotLoop(env, state, i, p, pots, 0, numPots).Ok?
    ensures PotSlots(env, p, pots, numPots).Ok? && |PotSlots(env, p, pots, numPots).value| == numPots
    ensures var s, v := PotSlots(env, p, pots, numPots).value, FlatValues(PotLoop(env, state, i, p, pots, 0, numPots).value);
      && |v| == 10 * numPots
      && forall j, l :: 0 <= j <= l < numPots && s[j].None? ==> s[l].None? && v[10 * l..10 * l + 10] == Zeros(10)
  {
    PotLoopIsBlocksOfSlots(env, state, i, p, pots, 0, numPots);
    PotSlotsLength(env, p, pots, numPots);
    PotSlotsNoneStays(env, p, pots, numPots);
    PotLoopShape(env, state, i, p, pots, 0, numPots);
    var s := PotSlots(env, p, pots, numPots).value;
    forall l | 0 <= l < numPots && s[l].None?
      ensures FlatValues(PotLoop(env, state, i, p, pots, 0, numPots).value)[10 * l..10 * l + 10] == Zeros(10)
    {
      PotBlocksBlock(env, state, i, p, s, 0, l);
    }
  }

  /** The wall entries are keyed `wall_0`, `wall_1`, ... for player i, one
      per adjacent square in the game's order, and flatten to one bit per
      square, 0 exactly for floor. */
  lemma WallEntriesFlat(i: nat, adjacent: seq<(Pos, string)>)
    ensures Keys(WallEntries(i, adjacent)) == seq(|adjacent|, d requires 0 <= d < |adjacent| => Key(i, Wall(d)))
    ensures OwnedBy(WallEntries(i, adjacent), i)
    ensures var v := FlatValues(WallEntries(i, adjacent));
      |v| == |adjacent| && forall d :: 0 <= d < |v| ==> (v[d] == 0 <==> adjacent[d].1 == " ")
  {
    var walls := WallEntries(i, adjacent);
    var bits := seq(|walls|, d requires 0 <= d < |walls| => walls[d].1[0]);
    FlatValuesOfScalars(walls, bits);
  }

  /** One player's features are 22 + 10 * num_pots + (one per adjacent
      square) numbers, all under that player's keys. */
  lemma PlayerEntriesShape(env: Env, state: GameState, numPots: nat, i: nat, p: Player)
    requires PlayerEntries(env, state, numPots, i, p).Ok?
    ensures var e := PlayerEntries(env, state, numPots, i, p).value;
      |FlatValues(e)| == 22 + 10 * numPots + |env.adjacentFeatures(p)| && OwnedBy(e, i)
  {
    var head := HeadEntries(env, state, i, p).value;
    var pots := PotLoop(env, state, i, p, env.potLocations, 0, numPots).value;
    var walls := WallEntries(i, env.adjacentFeatures(p));
    HeadEntriesShape(env, state, i, p);
    PotLoopShape(env, state, i, p, env.potLocations, 0, numPots);
    WallEntriesFlat(i, env.adjacentFeatures(p));
    FlatValuesAppend(head, pots);
    FlatValuesAppend(head + pots, walls);
  }

  // ---------------------------------------------------------------------
  // The loop body, on the dictionary.

  function ItemRank(it: Item): int
  {
    match it
    case Onion => 2
    case Tomato => 3
    case Dish => 4
    case Soup => 5
    case Serving => 6
    case EmptyCounter => 7
  }

  /** When a field of a player is inserted: (0, r) for the r-th step before
      the pot loop (the soup feature's three keys in one step), (1, j) in the
      j-th pot iteration, (2, d) in the d-th wall iteration. */
  function Stage(f: Field): (int, int)
  {
    match f
    case Orientation => (0, 0)
    case Objs => (0, 1)
    case Closest(it) => (0, ItemRank(it))
    case SoupOnions => (0, 5)
    case SoupTomatoes => (0, 5)
    case Pot(j, _) => (1, j)
    case Wall(d) => (2, d)
  }

  predicate Earlier(s: (int, int), phase: int, n: int)
  {
    s.0 < phase || (s.0 == phase && s.1 < n)
  }

  /** Every key of `d` is of an earlier player, or of player i and inserted
      before step `n` of phase `phase`. */
  ghost predicate KeysBefore(d: Features, i: nat, phase: int, n: int)
  {
    forall j :: 0 <= j < |d| ==> d[j].0.player < i || (d[j].0.player == i && Earlier(Stage(d[j].0.field), phase, n))
  }

  /** Entries all inserted at step `n` of phase `phase` are new, so merging
      them appends them. */
  lemma MergeAt(a: Features, b: Features, i: nat, phase: int, n: int)
    requires KeysBefore(a, i, phase, n) && DistinctKeys(b)
    requires forall j :: 0 <= j < |b| ==> b[j].0.player == i && Stage(b[j].0.field) == (phase, n)
    ensures Merge(a, b) == a + b
    ensures KeysBefore(a + b, i, phase, n + 1)
  {
    MergeFresh(a, b);
  }

  lemma AssignAt(d: Features, i: nat, f: Field, v: seq<int>)
    requires KeysBefore(d, i, Stage(f).0, Stage(f).1)
    ensures Assign(d, Key(i, f), v) == d + [(Key(i, f), v)]
    ensures KeysBefore(d + [(Key(i, f), v)], i, Stage(f).0, Stage(f).1 + 1)
  {
  }

  lemma MergeClosest(a: Features, env: Env, state: GameState, i: nat, p: Player, item: Item)
    requires KeysBefore(a, i, 0, ItemRank(item))
    ensures Merge(a, ClosestFeature(env, state, i, p, item)) == a + ClosestFeature(env, state, i, p, item)
    ensures KeysBefore(a + ClosestFeature(env, state, i, p, item), i, 0, ItemRank(item) + 1)
  {
    var b := ClosestFeature(env, state, i, p, item);
    assert forall j :: 0 <= j < |b| ==> b[j].0 == Keys(b)[j];
    MergeAt(a, b, i, 0, ItemRank(item));
  }

  /** `all_features = concat_dicts(all_features, make_closest_feature(...))`
      for one item: its keys are new, so its entries are appended. */
  method ConcatClosest(env: Env, state: GameState, all: Features, i: nat, player: Player, item: Item)
    returns (r: Features)
    requires KeysBefore(all, i, 0, ItemRank(item))
    ensures r == all + ClosestFeature(env, state, i, player, item)
    ensures KeysBefore(r, i, 0, ItemRank(item) + 1)
  {
    MergeClosest(all, env, state, i, player, item);
    r := Merge(all, MakeClosestFeature(env, state, i, player, item, ItemLocations(env, item)));
  }

  /** The six `concat_dicts` steps, closest onion to closest empty counter. */
  method ConcatClosestFeatures(env: Env, state: GameState, all: Features, i: nat, player: Player)
    returns (r: Features)
    requires KeysBefore(all, i, 0, 2)
    ensures r == all + ClosestFeatures(env, state, i, player)
    ensures KeysBefore(r, i, 1, 0)
  {
    r := ConcatClosest(env, state, all, i, player, Onion);
    ghost var closest := ClosestFeature(env, state, i, player, Onion);
    assert ItemRank(Onion) + 1 == ItemRank(Tomato);
    r := ConcatClosest(env, state, r, i, player, Tomato);
    AppendAssoc(all, closest, ClosestFeature(env, state, i, player, Tomato));
    closest := closest + ClosestFeature(env, state, i, player, Tomato);
    assert ItemRank(Tomato) + 1 == ItemRank(Dish);
    r := ConcatClosest(env, state, r, i, player, Dish);
    AppendAssoc(all, closest, ClosestFeature(env, state, i, player, Dish));
    closest := closest + ClosestFeature(env, state, i, player, Dish);
    assert ItemRank(Dish) + 1 == ItemRank(Soup);
    r := ConcatClosest(env, state, r, i, player, Soup);
    AppendAssoc(all, closest, ClosestFeature(env, state, i, player, Soup));
    closest := closest + ClosestFeature(env, state, i, player, Soup);
    assert ItemRank(Soup) + 1 == ItemRank(Serving);
    r := ConcatClosest(env, state, r, i, player, Serving);
    AppendAssoc(all, closest, ClosestFeature(env, state, i, player, Serving));
    closest := closest + ClosestFeature(env, state, i, player, Serving);
    assert ItemRank(Serving) + 1 == ItemRank(EmptyCounter);
    r := ConcatClosest(env, state, r, i, player, EmptyCounter);
    AppendAssoc(all, closest, ClosestFeature(env, state, i, player, EmptyCounter));
    closest := closest + ClosestFeature(env, state, i, player, EmptyCounter);
    assert closest == ClosestFeatures(env, state, i, player);
  }

  /** Facing direction, held object and closest items, inserted one key or
      one merged dictionary at a time. */
  method AddHeadFeatures(env: Env, state: GameState, all: Features, i: nat, player: Player)
    returns (r: Result<Features>)
    requires KeysBefore(all, i, 0, 0)
    ensures r == Extend(all, HeadEntries(env, state, i, player))
    ensures r.Ok? ==> KeysBefore(r.value, i, 1, 0)
  {
    var allFeatures := all;
    AssignAt(allFeatures, i, Orientation, OrientationFeature(player.orientation));
    allFeatures := Assign(allFeatures, Key(i, Orientation), OrientationFeature(player.orientation));
    var objs := HeldObjectFeature(player.heldObject);
    if objs.Err? {
      return Err(objs.error);
    }
    AssignAt(allFeatures, i, Objs, objs.value);
    allFeatures := Assign(allFeatures, Key(i, Objs), objs.value);
    ghost var first := [(Key(i, Orientation), OrientationFeature(player.orientation)), (Key(i, Objs), objs.value)];
    AppendAssoc(all, [first[0]], [first[1]]);
    assert [first[0]] + [first[1]] == first;
    allFeatures := ConcatClosestFeatures(env, state, allFeatures, i, player);
    HeadEntriesOk(env, state, i, player, objs.value);
    AppendAssoc(all, first, ClosestFeatures(env, state, i, player));
    r := Ok(allFeatures);
  }

  /** `all_features = concat_dicts(all_features, pot_features)`: the keys of
      pot `potIdx` are new, so its entries are appended. */
  method ConcatPot(all: Features, i: nat, potIdx: nat, block: Features) returns (r: Features)
    requires KeysBefore(all, i, 1, potIdx)
    requires Keys(block) == PotKeys(i, potIdx) && DistinctKeys(block)
    ensures r == all + block
    ensures KeysBefore(r, i, 1, potIdx + 1)
  {
    assert forall j :: 0 <= j < |block| ==> block[j].0 == PotKeys(i, potIdx)[j];
    MergeAt(all, block, i, 1, potIdx);
    r := Merge(all, block);
  }

  /** The closest-pot loop on a copy of the layout's pot list: each found pot
      is encoded, merged in, and removed from the copy. */
  method AddPotFeatures(env: Env, state: GameState, numPots: nat, all: Features, i: nat, player: Player)
    returns (r: Result<Features>)
    requires KeysBefore(all, i, 1, 0)
    ensures r == Extend(all, PotLoop(env, state, i, player, env.potLocations, 0, numPots))
    ensures r.Ok? ==> KeysBefore(r.value, i, 2, 0)
  {
    var allFeatures := all;
    var potLocations := env.potLocations;
    ghost var pots: Features := [];
    ExtendAssociates([], [], PotLoop(env, state, i, player, potLocations, 0, numPots));
    assert all + [] == all;
    for potIdx := 0 to numPots
      invariant allFeatures == all + pots
      invariant KeysBefore(allFeatures, i, 1, potIdx)
      invariant PotLoop(env, state, i, player, env.potLocations, 0, numPots)
             == Extend(pots, PotLoop(env, state, i, player, potLocations, potIdx, numPots))
    {
      var closestPotLoc := env.closestPot(player, potLocations);
      var potFeatures := MakePotFeature(env, state, i, player, potIdx, closestPotLoc);
      if potFeatures.Err? {
        return Err(potFeatures.error);
      }
      allFeatures := ConcatPot(allFeatures, i, potIdx, potFeatures.value);
      if closestPotLoc.Some? {
        var removed := Remove(potLocations, closestPotLoc.value);
        if removed.Err? {
          return Err(removed.error);
        }
        potLocations := removed.value;
      }
      ExtendAssociates(pots, potFeatures.value, PotLoop(env, state, i, player, potLocations, potIdx + 1, numPots));
      AppendAssoc(all, pots, potFeatures.value);
      pots := pots + potFeatures.value;
    }
    assert pots + [] == pots;
    r := Ok(allFeatures);
  }

  /** One wall bit per adjacent square, each under a new key. */
  method AddWallFeatures(all: Features, i: nat, adjacent: seq<(Pos, string)>) returns (r: Features)
    requires KeysBefore(all, i, 2, 0)
    ensures r == all + WallEntries(i, adjacent)
    ensures KeysBefore(r, i + 1, 0, 0)
  {
    r := all;
    ghost var walls := WallEntries(i, adjacent);
    for direction := 0 to |adjacent|
      invariant r == all + walls[..direction]
      invariant KeysBefore(r, i, 2, direction)
    {
      var bit := WallBit(adjacent[direction].1);
      AssignAt(r, i, Wall(direction), bit);
      r := Assign(r, Key(i, Wall(direction)), bit);
      assert walls[..direction + 1] == walls[..direction] + [walls[direction]];
      AppendAssoc(all, walls[..direction], [walls[direction]]);
    }
    assert walls[..|adjacent|] == walls;
  }

  /** What the first loop adds for each player, in player order. */
  function PlayerResults(env: Env, state: GameState, numPots: nat): (r: seq<Result<Features>>)
    ensures |r| == |state.players|
  {
    seq(|state.players|, j requires 0 <= j < |state.players| => PlayerEntries(env, state, numPots, j, state.players[j]))
  }

  /** The body of the `for i, player` loop: inserts player i's features into
      `all` by item assignment and dictionary merging. Every key being new,
      this appends exactly `PlayerEntries`; or it raises what the source
      raises. */
  method AddPlayerFeatures(env: Env, state: GameState, numPots: nat, all: Features, i: nat, player: Player)
    returns (r: Result<Features>)
    requires KeysBefore(all, i, 0, 0)
    requires i < |state.players| && player == state.players[i]
    ensures r == Extend(all, PlayerResults(env, state, numPots)[i])
    ensures r.Ok? ==> KeysBefore(r.value, i + 1, 0, 0)
  {
    var head := AddHeadFeatures(env, state, all, i, player);
    if head.Err? {
      return head;
    }
    var pots := AddPotFeatures(env, state, numPots, head.value, i, player);
    if pots.Err? {
      return pots;
    }
    var walls := AddWallFeatures(pots.value, i, env.adjacentFeatures(player));
    ghost var h := HeadEntries(env, state, i, player).value;
    ghost var p := PotLoop(env, state, i, player, env.potLocations, 0, numPots).value;
    AppendAssoc(all, h, p);
    AppendAssoc(all, h + p, WallEntries(i, env.adjacentFeatures(player)));
    r := Ok(walls);
  }
}
