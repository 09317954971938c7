/** What `featurize_state` returns: for n players, n rows, row i being
    player i's own features, then the features of every other player in
    player order, then the other players' positions relative to player i,
    then player i's position. This holds when every player's keys are
    gathered back exactly, which the two-character prefix test does for at
    most ten players; from eleven players on it fails (see `Findings`). */
module Layout {
  import opened Overcooked
  import opened FeatureKeys
  import opened OrderedDicts
  import opened Encoders
  import opened PlayerFeatures
  import opened Assembly

  /** No two players are equal (in a game, no two share a square). */
  ghost predicate DistinctPlayers(players: seq<Player>)
  {
    forall j, l :: 0 <= j < l < |players| ==> players[j] != players[l]
  }

  /** The j-th player other than player i. */
  function OtherIndex(i: nat, j: nat): nat
  {
    if j < i then j else j + 1
  }

  // ---------------------------------------------------------------------
  // Gathering a player's keys back.

  /** A rule keeps exactly player i's keys among players below ten; the
      player-index rule does so for every player. */
  lemma KeepsIff(rule: KeyRule, k: Key, i: nat)
    requires rule == PlayerIndex || k.player < 10
    ensures Keeps(rule, k, i) <==> k.player == i
  {
  }

  lemma {:induction false} SelectAppend(a: Features, b: Features, rule: KeyRule, i: nat)
    ensures Select(a + b, rule, i) == Select(a, rule, i) + Select(b, rule, i)
    decreases |a|
  {
    if a == [] {
      assert a + b == b;
    } else {
      assert (a + b)[0] == a[0] && (a + b)[1..] == a[1..] + b;
      SelectAppend(a[1..], b, rule, i);
      var head := if Keeps(rule, a[0].0, i) then [a[0]] else [];
      AppendAssoc(head, Select(a[1..], rule, i), Select(b, rule, i));
    }
  }

  /** The entries of one player are all kept, or none are. */
  lemma {:induction false} SelectOwned(d: Features, rule: KeyRule, owner: nat, i: nat)
    requires OwnedBy(d, owner) && (rule == PlayerIndex || owner < 10)
    ensures Select(d, rule, i) == if owner == i then d else []
    decreases |d|
  {
    if d != [] {
      KeepsIff(rule, d[0].0, i);
      SelectOwned(d[1..], rule, owner, i);
      assert d == [d[0]] + d[1..];
    }
  }

  /** The first loop succeeds up to m only if it succeeds for every player
      below m, and each player's entries end up in the dictionary. */
  lemma {:induction false} AccumulateParts(parts: seq<Result<Features>>, m: nat, j: nat)
    requires j < m <= |parts| && Accumulate(parts, m).Ok?
    ensures parts[j].Ok?
    ensures forall x | x in parts[j].value :: x in Accumulate(parts, m).value
    decreases m
  {
    var a := Accumulate(parts, m - 1).value;
    if j < m - 1 {
      AccumulateParts(parts, m - 1, j);
    }
    assert Accumulate(parts, m).value == a + parts[m - 1].value;
  }

  /** A successful first loop up to m is the loop up to m - 1 followed by
      player m - 1's entries. */
  lemma AccumulateSnoc(parts: seq<Result<Features>>, m: nat)
    requires 0 < m <= |parts| && Accumulate(parts, m).Ok?
    ensures Accumulate(parts, m - 1).Ok? && parts[m - 1].Ok?
    ensures Accumulate(parts, m).value == Accumulate(parts, m - 1).value + parts[m - 1].value
  {
  }

  /** Every player's entries are its own and not empty. */
  ghost predicate PartsOwned(parts: seq<Result<Features>>)
  {
    forall j | 0 <= j < |parts| && parts[j].Ok? :: OwnedBy(parts[j].value, j) && parts[j].value != []
  }

  /** The step of the first loop for player j gives player j's keys, with
      22 + 10 * num_pots features plus one per adjacent square. */
  lemma PlayerResultsShape(env: Env, state: GameState, numPots: nat)
    ensures PartsOwned(PlayerResults(env, state, numPots))
    ensures var parts := PlayerResults(env, state, numPots);
      forall j | 0 <= j < |parts| && parts[j].Ok? ::
        |FlatValues(parts[j].value)| == 22 + 10 * numPots + |env.adjacentFeatures(state.players[j])|
  {
    var parts := PlayerResults(env, state, numPots);
    forall j | 0 <= j < |parts| && parts[j].Ok?
      ensures OwnedBy(parts[j].value, j) && parts[j].value != []
      ensures |FlatValues(parts[j].value)| == 22 + 10 * numPots + |env.adjacentFeatures(state.players[j])|
    {
      PlayerEntriesShape(env, state, numPots, j, state.players[j]);
    }
  }

  /** Gathering player i's features from the dictionary of players 0 to
      m - 1 gives back exactly player i's entries, or nothing for i >= m. */
  lemma {:induction false} SelectAccumulated(parts: seq<Result<Features>>, rule: KeyRule, m: nat, i: nat)
    requires m <= |parts| && Accumulate(parts, m).Ok? && PartsOwned(parts)
    requires rule == PlayerIndex || m <= 10
    ensures i < m ==> parts[i].Ok? && Select(Accumulate(parts, m).value, rule, i) == parts[i].value
    ensures i >= m ==> Select(Accumulate(parts, m).value, rule, i) == []
    decreases m
  {
    if m > 0 {
      AccumulateSnoc(parts, m);
      var a := Accumulate(parts, m - 1).value;
      var e := parts[m - 1].value;
      SelectAccumulated(parts, rule, m - 1, i);
      SelectAppend(a, e, rule, i);
      SelectOwned(e, rule, m - 1, i);
    }
  }

  /** Each player's concatenated features, empty where computing them raised. */
  function OwnFeatures(parts: seq<Result<Features>>): (r: seq<seq<int>>)
    ensures |r| == |parts|
    ensures forall j :: 0 <= j < |parts| && parts[j].Ok? ==> r[j] == FlatValues(parts[j].value)
  {
    seq(|parts|, j requires 0 <= j < |parts| => if parts[j].Ok? then FlatValues(parts[j].value) else [])
  }

  // ---------------------------------------------------------------------
  // The other players.

  /** With distinct players, player i is compared against itself only:
      the relative positions are those of the other players, in order. */
  lemma {:induction false} RelativePositionsOfDistinct(env: Env, players: seq<Player>, i: nat, m: nat)
    requires i < |players| && m <= |players| && DistinctPlayers(players)
    ensures var rel := RelativePositions(env, players, i, m);
      && |rel| == (if i < m then m - 1 else m)
      && forall j :: 0 <= j < |rel| ==>
           rel[j] == DeltaFeature(env.posDistance(players[OtherIndex(i, j)].position, players[i].position))
    decreases m
  {
    if m > 0 {
      RelativePositionsOfDistinct(env, players, i, m - 1);
      assert players[i] == players[m - 1] <==> i == m - 1;
    }
  }

  /** With two distinct players or more, every player has another to be
      placed relative to. */
  lemma RelativePositionsNonEmpty(env: Env, players: seq<Player>, i: nat)
    requires 2 <= |players| && i < |players| && DistinctPlayers(players)
    ensures RelativePositions(env, players, i, |players|) != []
  {
    RelativePositionsOfDistinct(env, players, i, |players|);
  }

  /** The other players' features, in player order. */
  lemma {:induction false} OtherFeaturesContent(features: seq<seq<int>>, i: nat, m: nat)
    requires m <= |features|
    ensures var o := OtherFeatures(features, i, m);
      && |o| == (if i < m then m - 1 else m)
      && forall j :: 0 <= j < |o| ==> o[j] == features[OtherIndex(i, j)]
    decreases m
  {
    if m > 0 {
      OtherFeaturesContent(features, i, m - 1);
    }
  }

  // ---------------------------------------------------------------------
  // The rows.

  /** Every player's absolute position, as the second loop records it. */
  function AbsoluteRows(players: seq<Player>): (r: seq<seq<int>>)
    ensures |r| == |players|
  {
    seq(|players|, j requires 0 <= j < |players| => PosFeature(players[j].position))
  }

  /** Every player's concatenated relative positions, as the second loop
      records them. */
  function RelativeRows(env: Env, players: seq<Player>): (r: seq<seq<int>>)
    ensures |r| == |players|
  {
    seq(|players|, j requires 0 <= j < |players| => Flatten(RelativePositions(env, players, j, |players|)))
  }

  lemma SliceSnoc<T>(s: seq<T>, m: nat)
    requires 0 < m <= |s|
    ensures s[..m] == s[..m - 1] + [s[m - 1]]
  {
  }

  /** The second loop, when every player's keys are gathered back as a
      non-empty dictionary whose values concatenate to `owns`. */
  lemma {:induction false} ListsUpToLayout(env: Env, players: seq<Player>, all: Features, rule: KeyRule,
                                           owns: seq<seq<int>>, m: nat)
    requires 2 <= |players| && DistinctPlayers(players) && m <= |players| && |owns| == |players|
    requires forall j {:trigger Select(all, rule, j)} :: 0 <= j < |players| ==>
      Select(all, rule, j) != [] && FlatValues(Select(all, rule, j)) == owns[j]
    ensures ListsUpTo(env, players, all, rule, m)
         == Ok(PlayerLists(owns[..m], AbsoluteRows(players)[..m], RelativeRows(env, players)[..m]))
    decreases m
  {
    if m > 0 {
      ListsUpToLayout(env, players, all, rule, owns, m - 1);
      RelativePositionsNonEmpty(env, players, m - 1);
      ListsUpToStep(env, players, all, rule, m);
      SliceSnoc(owns, m);
      SliceSnoc(AbsoluteRows(players), m);
      SliceSnoc(RelativeRows(env, players), m);
    }
  }

  /** One step of the second loop, when it does not raise. */
  lemma ListsUpToStep(env: Env, players: seq<Player>, all: Features, rule: KeyRule, m: nat)
    requires 0 < m <= |players| && ListsUpTo(env, players, all, rule, m - 1).Ok?
    requires Select(all, rule, m - 1) != [] && RelativePositions(env, players, m - 1, |players|) != []
    ensures var prev := ListsUpTo(env, players, all, rule, m - 1).value;
      ListsUpTo(env, players, all, rule, m)
        == Ok(PlayerLists(prev.features + [FlatValues(Select(all, rule, m - 1))],
                          prev.absolutePositions + [PosFeature(players[m - 1].position)],
                          prev.relativePositions + [Flatten(RelativePositions(env, players, m - 1, |players|))]))
  {
  }

  /** The third loop, given at least two players. */
  lemma {:induction false} RowsUpToLayout(ls: PlayerLists, m: nat)
    requires WellFormedLists(ls) && 2 <= |ls.features| && m <= |ls.features|
    ensures RowsUpTo(ls, m).Ok?
    ensures forall i :: 0 <= i < m ==>
      RowsUpTo(ls, m).value[i]
        == ls.features[i] + Flatten(OtherFeatures(ls.features, i, |ls.features|)) + ls.relativePositions[i] + ls.absolutePositions[i]
    decreases m
  {
    if m > 0 {
      RowsUpToLayout(ls, m - 1);
      OtherFeaturesContent(ls.features, m - 1, |ls.features|);
    }
  }

  /** With the player-index rule, or with at most ten players, each player's
      keys are gathered back as exactly its own entries. */
  lemma GatheredExactly(parts: seq<Result<Features>>, rule: KeyRule)
    requires PartsOwned(parts) && Accumulate(parts, |parts|).Ok?
    requires rule == PlayerIndex || |parts| <= 10
    ensures var all := Accumulate(parts, |parts|).value;
      forall j :: 0 <= j < |parts| ==>
        && parts[j].Ok?
        && Select(all, rule, j) == parts[j].value
        && Select(all, rule, j) != []
        && FlatValues(Select(all, rule, j)) == OwnFeatures(parts)[j]
  {
    forall j | 0 <= j < |parts|
      ensures parts[j].Ok? && Select(Accumulate(parts, |parts|).value, rule, j) == parts[j].value
    {
      SelectAccumulated(parts, rule, |parts|, j);
    }
  }

  /** The second loop, for any per-player results of the first loop whose
      keys are gathered back exactly. */
  lemma ListsFromParts(env: Env, players: seq<Player>, parts: seq<Result<Features>>, rule: KeyRule)
    requires |parts| == |players| && PartsOwned(parts)
    requires rule == PlayerIndex || |players| <= 10
    requires 2 <= |players| && DistinctPlayers(players)
    requires Accumulate(parts, |players|).Ok?
    ensures ListsUpTo(env, players, Accumulate(parts, |players|).value, rule, |players|)
         == Ok(PlayerLists(OwnFeatures(parts), AbsoluteRows(players), RelativeRows(env, players)))
  {
    var n := |players|;
    var owns, abs, rel := OwnFeatures(parts), AbsoluteRows(players), RelativeRows(env, players);
    GatheredExactly(parts, rule);
    ListsUpToLayout(env, players, Accumulate(parts, n).value, rule, owns, n);
    assert owns[..n] == owns && abs[..n] == abs && rel[..n] == rel;
  }

  /** `FeaturizeLayout`, for any per-player results of the first loop. */
  lemma LayoutFromParts(env: Env, players: seq<Player>, parts: seq<Result<Features>>, rule: KeyRule)
    requires |parts| == |players| && PartsOwned(parts)
    requires rule == PlayerIndex || |players| <= 10
    requires 2 <= |players| && DistinctPlayers(players)
    requires Accumulate(parts, |players|).Ok?
    ensures FromParts(env, players, parts, rule).Ok?
    ensures var rows, n, owns := FromParts(env, players, parts, rule).value, |players|, OwnFeatures(parts);
      && |rows| == n
      && forall i :: 0 <= i < n ==>
           rows[i] == owns[i] + Flatten(OtherFeatures(owns, i, n))
                      + Flatten(RelativePositions(env, players, i, n))
                      + PosFeature(players[i].position)
  {
    var n := |players|;
    var owns := OwnFeatures(parts);
    ListsFromParts(env, players, parts, rule);
    var ls := PlayerLists(owns, AbsoluteRows(players), RelativeRows(env, players));
    RowsUpToLayout(ls, n);
  }

  /** The featurizer's result for at least two distinct players, when every
      player's keys are gathered back exactly: one row per player, own
      features first, then the others' features in player order, then the
      positions of the others relative to the player, then its own. */
  lemma FeaturizeLayout(env: Env, state: GameState, numPots: nat, rule: KeyRule)
    requires rule == PlayerIndex || |state.players| <= 10
    requires 2 <= |state.players| && DistinctPlayers(state.players)
    requires AllEntries(env, state, numPots, |state.players|).Ok?
    ensures FeaturizeWith(env, state, numPots, rule).Ok?
    ensures var rows, n := FeaturizeWith(env, state, numPots, rule).value, |state.players|;
      var owns := OwnFeatures(PlayerResults(env, state, numPots));
      && |rows| == n
      && forall i :: 0 <= i < n ==>
           rows[i] == owns[i] + Flatten(OtherFeatures(owns, i, n))
                      + Flatten(RelativePositions(env, state.players, i, n))
                      + PosFeature(state.players[i].position)
  {
    PlayerResultsShape(env, state, numPots);
    LayoutFromParts(env, state.players, PlayerResults(env, state, numPots), rule);
  }

  /** `np.concatenate` of arrays of one length. */
  lemma {:induction false} FlattenUniform(ss: seq<seq<int>>, len: nat)
    requires forall j :: 0 <= j < |ss| ==> |ss[j]| == len
    ensures |Flatten(ss)| == |ss| * len
    decreases |ss|
  {
    if ss != [] {
      FlattenUniform(ss[1..], len);
      MulStep(|ss|, len);
    }
  }

  /** The length of one row, given the length of each player's features. */
  lemma RowLength(owns: seq<seq<int>>, i: nat, rel: seq<seq<int>>, abs: seq<int>, len: nat)
    requires i < |owns| && forall j :: 0 <= j < |owns| ==> |owns[j]| == len
    requires |rel| == |owns| - 1 && (forall j :: 0 <= j < |rel| ==> |rel[j]| == 2) && |abs| == 2
    ensures |owns[i] + Flatten(OtherFeatures(owns, i, |owns|)) + Flatten(rel) + abs|
         == |owns| * len + 2 * (|owns| - 1) + 2
  {
    var others := OtherFeatures(owns, i, |owns|);
    OtherFeaturesContent(owns, i, |owns|);
    FlattenUniform(others, len);
    FlattenUniform(rel, 2);
    MulStep(|owns|, len);
  }

  lemma MulStep(k: nat, len: nat)
    requires 1 <= k
    ensures k * len == len + (k - 1) * len
  {
  }

  /** Every player's features have the same length when every player's
      entries flatten to that many numbers. */
  lemma OwnFeaturesUniform(parts: seq<Result<Features>>, len: nat)
    requires Accumulate(parts, |parts|).Ok?
    requires forall j :: 0 <= j < |parts| && parts[j].Ok? ==> |FlatValues(parts[j].value)| == len
    ensures forall j :: 0 <= j < |parts| ==> |OwnFeatures(parts)[j]| == len
  {
    forall j | 0 <= j < |parts| ensures parts[j].Ok? {
      AccumulateParts(parts, |parts|, j);
    }
  }

  /** Each relative position is a pair, one per other player. */
  lemma RelativePositionsShape(env: Env, players: seq<Player>, i: nat)
    requires i < |players| && DistinctPlayers(players)
    ensures var rel := RelativePositions(env, players, i, |players|);
      |rel| == |players| - 1 && forall j :: 0 <= j < |rel| ==> |rel[j]| == 2
  {
    RelativePositionsOfDistinct(env, players, i, |players|);
  }

  /** `FeatureRowLength`, for any per-player results of the first loop. */
  lemma RowLengthFromParts(env: Env, players: seq<Player>, parts: seq<Result<Features>>, rule: KeyRule, len: nat)
    requires |parts| == |players| && PartsOwned(parts)
    requires rule == PlayerIndex || |players| <= 10
    requires 2 <= |players| && DistinctPlayers(players)
    requires Accumulate(parts, |players|).Ok?
    requires forall j :: 0 <= j < |parts| && parts[j].Ok? ==> |FlatValues(parts[j].value)| == len
    ensures FromParts(env, players, parts, rule).Ok?
    ensures var rows, n := FromParts(env, players, parts, rule).value, |players|;
      forall i :: 0 <= i < |rows| ==> |rows[i]| == n * len + 2 * (n - 1) + 2
  {
    var n := |players|;
    var owns := OwnFeatures(parts);
    LayoutFromParts(env, players, parts, rule);
    OwnFeaturesUniform(parts, len);
    forall i | 0 <= i < n
      ensures |FromParts(env, players, parts, rule).value[i]| == n * len + 2 * (n - 1) + 2
    {
      RelativePositionsShape(env, players, i);
      RowLength(owns, i, RelativePositions(env, players, i, n), PosFeature(players[i].position), len);
    }
  }

  /** With a wall bit for each of the four directions, each row holds
      n * (26 + 10 * num_pots) features of the players, 2 * (n - 1) relative
      coordinates and 2 absolute ones. */
  lemma FeatureRowLength(env: Env, state: GameState, numPots: nat, rule: KeyRule)
    requires rule == PlayerIndex || |state.players| <= 10
    requires 2 <= |state.players| && DistinctPlayers(state.players)
    requires forall p | p in state.players :: |env.adjacentFeatures(p)| == 4
    requires AllEntries(env, state, numPots, |state.players|).Ok?
    ensures FeaturizeWith(env, state, numPots, rule).Ok?
    ensures var rows, n := FeaturizeWith(env, state, numPots, rule).value, |state.players|;
      forall i :: 0 <= i < |rows| ==> |rows[i]| == n * (26 + 10 * numPots) + 2 * (n - 1) + 2
  {
    PlayerResultsShape(env, state, numPots);
    RowLengthFromParts(env, state.players, PlayerResults(env, state, numPots), rule, 26 + 10 * numPots);
  }

  /** A lone player has no other player to be placed relative to: the
      featurizer raises. */
  lemma SinglePlayerFails(env: Env, state: GameState, numPots: nat, rule: KeyRule)
    requires |state.players| == 1 && AllEntries(env, state, numPots, 1).Ok?
    ensures FeaturizeWith(env, state, numPots, rule) == Err(EmptyConcatenate)
  {
    var parts := PlayerResults(env, state, numPots);
    var all := Accumulate(parts, 1).value;
    assert Select(all, rule, 0) != [] by {
      PlayerResultsShape(env, state, numPots);
      GatheredExactly(parts, rule);
    }
    assert RelativePositions(env, state.players, 0, 1) == [];
    assert ListsUpTo(env, state.players, all, rule, 1) == Err(EmptyConcatenate);
  }

  // ---------------------------------------------------------------------
  // Gathering by the two-character prefix from eleven players on.

  /** "p10_..." starts with "p1": player 1 takes player 10's keys, and
      player 10 takes none. */
  lemma PlayerOneTakesPlayerTensKeys(f: Field)
    ensures PrefixMatches(Key(10, f), 1)
    ensures !PrefixMatches(Key(10, f), 10)
  {
    PrefixMatchesIff(Key(10, f), 1);
    PrefixMatchesIff(Key(10, f), 10);
  }

  /** Under the prefix rule the second loop gets through players 0 to m - 1
      for m up to ten, as long as every player has some other player. */
  lemma {:induction false} PrefixListsOk(env: Env, players: seq<Player>, parts: seq<Result<Features>>, m: nat)
    requires |parts| == |players| && PartsOwned(parts) && Accumulate(parts, |players|).Ok?
    requires 2 <= |players| && DistinctPlayers(players) && m <= 10 && m <= |players|
    ensures ListsUpTo(env, players, Accumulate(parts, |players|).value, SourcePrefix, m).Ok?
    decreases m
  {
    if m > 0 {
      var n := |players|;
      var all := Accumulate(parts, n).value;
      PrefixListsOk(env, players, parts, m - 1);
      AccumulateParts(parts, n, m - 1);
      var x := parts[m - 1].value[0];
      assert x.0.player == m - 1;
      KeepsIff(SourcePrefix, x.0, m - 1);
      SelectMembers(all, SourcePrefix, m - 1);
      assert x in Select(all, SourcePrefix, m - 1);
      RelativePositionsNonEmpty(env, players, m - 1);
    }
  }

  /** A rule that keeps no key of the dictionary selects nothing. */
  lemma {:induction false} SelectNone(d: Features, rule: KeyRule, i: nat)
    requires forall x | x in d :: !Keeps(rule, x.0, i)
    ensures Select(d, rule, i) == []
    decreases |d|
  {
    if d != [] {
      assert d[0] in d;
      assert forall x | x in d[1..] :: x in d;
      SelectNone(d[1..], rule, i);
    }
  }

  /** The second loop raises for player m - 1 when nothing is gathered. */
  lemma ListsUpToEmptyFails(env: Env, players: seq<Player>, all: Features, rule: KeyRule, m: nat)
    requires 0 < m <= |players| && ListsUpTo(env, players, all, rule, m - 1).Ok?
    requires Select(all, rule, m - 1) == []
    ensures ListsUpTo(env, players, all, rule, m) == Err(EmptyConcatenate)
  {
  }

  /** `ElevenPlayersFail`, for any per-player results of the first loop. */
  lemma ElevenFromParts(env: Env, players: seq<Player>, parts: seq<Result<Features>>)
    requires |parts| == |players| && PartsOwned(parts) && Accumulate(parts, |players|).Ok?
    requires 11 <= |players| && DistinctPlayers(players)
    ensures FromParts(env, players, parts, SourcePrefix) == Err(EmptyConcatenate)
  {
    var n := |players|;
    var all := Accumulate(parts, n).value;
    PrefixListsOk(env, players, parts, 10);
    SelectNone(all, SourcePrefix, 10);
    ListsUpToEmptyFails(env, players, all, SourcePrefix, 11);
    ListsUpToErrStays(env, players, all, SourcePrefix, 11, n);
  }

  /** The featurizer as written raises on every game with eleven or more
      players: no key starts with "p" followed by "10". */
  lemma ElevenPlayersFail(env: Env, state: GameState, numPots: nat)
    requires 11 <= |state.players| && DistinctPlayers(state.players)
    requires AllEntries(env, state, numPots, |state.players|).Ok?
    ensures Featurize(env, state, numPots) == Err(EmptyConcatenate)
  {
    PlayerResultsShape(env, state, numPots);
    ElevenFromParts(env, state.players, PlayerResults(env, state, numPots));
  }

  /** Rules that select alike give the same second loop. */
  lemma {:induction false} ListsUpToSameSelection(env: Env, players: seq<Player>, all: Features,
                                                  rule1: KeyRule, rule2: KeyRule, m: nat)
    requires m <= |players|
    requires forall j :: 0 <= j < |players| ==> Select(all, rule1, j) == Select(all, rule2, j)
    ensures ListsUpTo(env, players, all, rule1, m) == ListsUpTo(env, players, all, rule2, m)
    decreases m
  {
    if m > 0 {
      ListsUpToSameSelection(env, players, all, rule1, rule2, m - 1);
    }
  }

  /** Up to ten players, the prefix test and the player index agree: the
      featurizer as written and the corrected one return the same. */
  lemma PrefixAgreesUpToTen(env: Env, state: GameState, numPots: nat)
    requires |state.players| <= 10
    ensures Featurize(env, state, numPots) == FeaturizeWith(env, state, numPots, PlayerIndex)
  {
    var n := |state.players|;
    var parts := PlayerResults(env, state, numPots);
    if Accumulate(parts, n).Ok? {
      var all := Accumulate(parts, n).value;
      PlayerResultsShape(env, state, numPots);
      GatheredExactly(parts, SourcePrefix);
      GatheredExactly(parts, PlayerIndex);
      ListsUpToSameSelection(env, state.players, all, SourcePrefix, PlayerIndex, n);
    }
  }
}
