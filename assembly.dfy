/** `featurize_state` as a whole: the first loop fills one dictionary with
    every player's features, the second gathers each player's features back
    out of it by key prefix and computes the positions of the other players
    relative to that player, the third lays out one row per player: own
    features, the other players' features, relative positions, absolute
    position. The functions state each loop's result; `FeaturizeState` runs
    the loops and is proved to return `Featurize`. */
module Assembly {
  import opened Overcooked
  import opened FeatureKeys
  import opened OrderedDicts
  import opened Encoders
  import opened PlayerFeatures

  /** The concatenation of the first k results, or the first error among them. */
  function Accumulate(parts: seq<Result<Features>>, k: nat): Result<Features>
    requires k <= |parts|
  {
    if k == 0 then Ok([])
    else
      match Accumulate(parts, k - 1)
      case Err(e) => Err(e)
      case Ok(a) => Extend(a, parts[k - 1])
  }

  /** The dictionary once the first loop has handled players 0 to k - 1. */
  function AllEntries(env: Env, state: GameState, numPots: nat, k: nat): Result<Features>
    requires k <= |state.players|
  {
    Accumulate(PlayerResults(env, state, numPots), k)
  }

  /** How a player's features are picked out of the dictionary. */
  datatype KeyRule =
    | SourcePrefix  // the key's first two characters are "p" and str(i)
    | PlayerIndex   // the key is one of player i's

  /** Whether the rule picks key k for player i. The prefix test on the
      rendered key is stated in closed form: `KeepsIsPrefixTest` proves it
      equal to comparing the first two characters of the key's text. */
  predicate Keeps(rule: KeyRule, k: Key, i: nat)
  {
    match rule
    case SourcePrefix => i < 10 && LeadingDigit(k.player) == i
    case PlayerIndex => k.player == i
  }

  lemma KeepsIsPrefixTest(k: Key, i: nat)
    ensures Keeps(SourcePrefix, k, i) <==> PrefixMatches(k, i)
  {
    PrefixMatchesIff(k, i);
  }

  /** `{k: v for k, v in d.items() if ...}`: the entries whose key the rule
      keeps, in dictionary order. */
  function Select(d: Features, rule: KeyRule, i: nat): (r: Features)
    ensures |r| <= |d|
    decreases |d|
  {
    if d == [] then []
    else (if Keeps(rule, d[0].0, i) then [d[0]] else []) + Select(d[1..], rule, i)
  }

  /** The selection holds exactly the entries of the dictionary whose key
      the rule keeps. */
  lemma {:induction false} SelectMembers(d: Features, rule: KeyRule, i: nat)
    ensures forall x :: x in Select(d, rule, i) <==> x in d && Keeps(rule, x.0, i)
    decreases |d|
  {
    if d != [] {
      SelectMembers(d[1..], rule, i);
      assert d == [d[0]] + d[1..];
    }
  }

  /** Player i's positions relative to players 0 to m - 1, skipping every
      player equal to player i. */
  function RelativePositions(env: Env, players: seq<Player>, i: nat, m: nat): seq<seq<int>>
    requires i < |players| && m <= |players|
  {
    if m == 0 then []
    else
      RelativePositions(env, players, i, m - 1)
      + (if players[i] == players[m - 1] then []
         else [DeltaFeature(env.posDistance(players[m - 1].position, players[i].position))])
  }

  /** The three lists the second loop fills, one entry per player. */
  datatype PlayerLists = PlayerLists(
    features: seq<seq<int>>,
    absolutePositions: seq<seq<int>>,
    relativePositions: seq<seq<int>>)

  /** The second loop over players 0 to m - 1: gathering player i's features
      fails when the rule keeps no key, and concatenating the relative
      positions fails when no other player differs from player i. */
  function ListsUpTo(env: Env, players: seq<Player>, all: Features, rule: KeyRule, m: nat): (r: Result<PlayerLists>)
    requires m <= |players|
    ensures r.Ok? ==> |r.value.features| == |r.value.absolutePositions| == |r.value.relativePositions| == m
  {
    if m == 0 then Ok(PlayerLists([], [], []))
    else
      match ListsUpTo(env, players, all, rule, m - 1)
      case Err(e) => Err(e)
      case Ok(ls) =>
        var i := m - 1;
        var own := Select(all, rule, i);
        if own == [] then Err(EmptyConcatenate)
        else
          var rel := RelativePositions(env, players, i, |players|);
          if rel == [] then Err(EmptyConcatenate)
          else
            Ok(PlayerLists(ls.features + [FlatValues(own)],
                           ls.absolutePositions + [PosFeature(players[i].position)],
                           ls.relativePositions + [Flatten(rel)]))
  }

  /** `[feats for j, feats in enumerate(features) if j != i]`, over the
      first m entries. */
  function OtherFeatures(features: seq<seq<int>>, i: nat, m: nat): seq<seq<int>>
    requires m <= |features|
  {
    if m == 0 then []
    else OtherFeatures(features, i, m - 1) + (if m - 1 == i then [] else [features[m - 1]])
  }

  ghost predicate WellFormedLists(ls: PlayerLists)
  {
    |ls.absolutePositions| == |ls.features| && |ls.relativePositions| == |ls.features|
  }

  /** The third loop over players 0 to m - 1: one row per player, failing
      when there is no other player to concatenate. */
  function RowsUpTo(ls: PlayerLists, m: nat): (r: Result<seq<seq<int>>>)
    requires WellFormedLists(ls) && m <= |ls.features|
    ensures r.Ok? ==> |r.value| == m
  {
    if m == 0 then Ok([])
    else
      match RowsUpTo(ls, m - 1)
      case Err(e) => Err(e)
      case Ok(rows) =>
        var i := m - 1;
        var others := OtherFeatures(ls.features, i, |ls.features|);
        if others == [] then Err(EmptyConcatenate)
        else Ok(rows + [ls.features[i] + Flatten(others) + ls.relativePositions[i] + ls.absolutePositions[i]])
  }

  /** The whole featurizer, with the given rule for gathering a player's keys. */
  function FeaturizeWith(env: Env, state: GameState, numPots: nat, rule: KeyRule): Result<seq<seq<int>>>
  {
    FromParts(env, state.players, PlayerResults(env, state, numPots), rule)
  }

  /** The three loops, given the result of the first loop's step for each
      player. */
  function FromParts(env: Env, players: seq<Player>, parts: seq<Result<Features>>, rule: KeyRule): Result<seq<seq<int>>>
    requires |parts| == |players|
  {
    match Accumulate(parts, |players|)
    case Err(e) => Err(e)
    case Ok(all) =>
      match ListsUpTo(env, players, all, rule, |players|)
      case Err(e) => Err(e)
      case Ok(ls) => RowsUpTo(ls, |players|)
  }

  /** The featurizer as written: keys gathered by their two-character prefix. */
  function Featurize(env: Env, state: GameState, numPots: nat): Result<seq<seq<int>>>
  {
    FeaturizeWith(env, state, numPots, SourcePrefix)
  }

  // ---------------------------------------------------------------------
  // An error stops each loop for good.

  lemma {:induction false} AccumulateErrStays(parts: seq<Result<Features>>, k: nat, n: nat)
    requires k <= n <= |parts| && Accumulate(parts, k).Err?
    ensures Accumulate(parts, n) == Accumulate(parts, k)
    decreases n
  {
    if k < n {
      AccumulateErrStays(parts, k, n - 1);
    }
  }

  /** One more player: the dictionary grows by that player's entries, and
      an error there is the loop's result. */
  lemma AccumulateStep(parts: seq<Result<Features>>, k: nat, all: Features, added: Result<Features>)
    requires k < |parts| && Accumulate(parts, k) == Ok(all) && added == Extend(all, parts[k])
    ensures Accumulate(parts, k + 1) == added
    ensures added.Err? ==> Accumulate(parts, |parts|) == added
  {
    if added.Err? {
      AccumulateErrStays(parts, k + 1, |parts|);
    }
  }

  lemma {:induction false} ListsUpToErrStays(env: Env, players: seq<Player>, all: Features, rule: KeyRule, k: nat, n: nat)
    requires k <= n <= |players| && ListsUpTo(env, players, all, rule, k).Err?
    ensures ListsUpTo(env, players, all, rule, n) == ListsUpTo(env, players, all, rule, k)
    decreases n
  {
    if k < n {
      ListsUpToErrStays(env, players, all, rule, k, n - 1);
    }
  }

  lemma {:induction false} RowsUpToErrStays(ls: PlayerLists, k: nat, n: nat)
    requires WellFormedLists(ls) && k <= n <= |ls.features| && RowsUpTo(ls, k).Err?
    ensures RowsUpTo(ls, n) == RowsUpTo(ls, k)
    decreases n
  {
    if k < n {
      RowsUpToErrStays(ls, k, n - 1);
    }
  }

  // ---------------------------------------------------------------------
  // The three loops.

  /** The first loop: every player's features into one dictionary. */
  method CollectFeatures(env: Env, state: GameState, numPots: nat) returns (r: Result<Features>)
    ensures r == AllEntries(env, state, numPots, |state.players|)
  {
    ghost var parts := PlayerResults(env, state, numPots);
    var allFeatures: Features := [];
    for i := 0 to |state.players|
      invariant Accumulate(parts, i) == Ok(allFeatures)
      invariant KeysBefore(allFeatures, i, 0, 0)
    {
      var added := AddPlayerFeatures(env, state, numPots, allFeatures, i, state.players[i]);
      AccumulateStep(parts, i, allFeatures, added);
      if added.Err? {
        return added;
      }
      allFeatures := added.value;
    }
    r := Ok(allFeatures);
  }

  /** The inner loop of the second: player i's position relative to every
      player that differs from player i, in player order. */
  method RelativePositionsOf(env: Env, players: seq<Player>, i: nat) returns (relPos: seq<seq<int>>)
    requires i < |players|
    ensures relPos == RelativePositions(env, players, i, |players|)
  {
    relPos := [];
    for j := 0 to |players|
      invariant relPos == RelativePositions(env, players, i, j)
    {
      if players[i] != players[j] {
        relPos := relPos + [DeltaFeature(env.posDistance(players[j].position, players[i].position))];
      }
    }
  }

  /** The second loop: each player's features gathered back by the given
      rule, its absolute position and its concatenated relative positions. */
  method GatherPlayerLists(env: Env, players: seq<Player>, allFeatures: Features, rule: KeyRule) returns (r: Result<PlayerLists>)
    ensures r == ListsUpTo(env, players, allFeatures, rule, |players|)
  {
    var playerFeatures: seq<seq<int>> := [];
    var playerAbsolutePositions: seq<seq<int>> := [];
    var playerRelativePositions: seq<seq<int>> := [];
    for i := 0 to |players|
      invariant ListsUpTo(env, players, allFeatures, rule, i)
             == Ok(PlayerLists(playerFeatures, playerAbsolutePositions, playerRelativePositions))
    {
      var playerDict := Select(allFeatures, rule, i);
      if playerDict == [] {
        ListsUpToErrStays(env, players, allFeatures, rule, i + 1, |players|);
        return Err(EmptyConcatenate);
      }
      var features := FlatValues(playerDict);
      var absPos := PosFeature(players[i].position);
      var relPos := RelativePositionsOf(env, players, i);
      if relPos == [] {
        ListsUpToErrStays(env, players, allFeatures, rule, i + 1, |players|);
        return Err(EmptyConcatenate);
      }
      playerFeatures := playerFeatures + [features];
      playerAbsolutePositions := playerAbsolutePositions + [absPos];
      playerRelativePositions := playerRelativePositions + [Flatten(relPos)];
    }
    r := Ok(PlayerLists(playerFeatures, playerAbsolutePositions, playerRelativePositions));
  }

  /** The third loop: one row per player, own features first. */
  method LayOutRows(lists: PlayerLists) returns (r: Result<seq<seq<int>>>)
    requires WellFormedLists(lists)
    ensures r == RowsUpTo(lists, |lists.features|)
  {
    var playerFeatures := lists.features;
    var orderedFeatures: seq<seq<int>> := [];
    for i := 0 to |playerFeatures|
      invariant RowsUpTo(lists, i) == Ok(orderedFeatures)
    {
      var others := OtherFeatures(playerFeatures, i, |playerFeatures|);
      if others == [] {
        RowsUpToErrStays(lists, i + 1, |playerFeatures|);
        return Err(EmptyConcatenate);
      }
      orderedFeatures := orderedFeatures
        + [playerFeatures[i] + Flatten(others) + lists.relativePositions[i] + lists.absolutePositions[i]];
    }
    r := Ok(orderedFeatures);
  }

  /** `featurize_state`: the three loops in turn, raising where the source
      raises. Each player's features are gathered back by player index:
      up to ten players this is what the prefix test selects
      (`Layout.PrefixAgreesUpToTen`), and from eleven players on the prefix
      test makes the source raise (`Layout.ElevenPlayersFail`). */
  method FeaturizeState(env: Env, state: GameState, numPots: nat) returns (r: Result<seq<seq<int>>>)
    ensures r == FeaturizeWith(env, state, numPots, PlayerIndex)
  {
    var allFeatures := CollectFeatures(env, state, numPots);
    if allFeatures.Err? {
      return Err(allFeatures.error);
    }
    var lists := GatherPlayerLists(env, state.players, allFeatures.value, PlayerIndex);
    if lists.Err? {
      return Err(lists.error);
    }
    r := LayOutRows(lists.value);
  }
}
