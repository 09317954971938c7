# featurize_state, modelled in Dafny

This project models `featurize_state` from `support_rohan.py`. That is the hand-designed state encoder of the multi-agent cooking game: it turns one game state into one integer feature row per player. The project proves what each part of the encoder produces:

- **Facing direction and held object**: one-hot encodings.
- **Closest item**: the offsets to the closest square holding each kind of item, (0, 0) when the player already holds one. For soup, the onion and tomato counts follow.
- **Pot blocks**: one ten-number block for each of the `num_pots` closest pots, all zeros where no pot is found.
- **Wall bits**: one per adjacent square.
- **Player-centric rows**: a player's own features, then the other players' features, then their positions relative to the player, then the player's own position.

The modules follow the source:

- `Overcooked`: the game values the encoder reads.
- `OrderedDicts`: the insertion-ordered Python dictionary, as a list of entries. `ToMap` is the reference meaning of each operation.
- `FeatureKeys`: the `"p{i}_..."` keys and the two-character prefix test.
- `Encoders`: `make_closest_feature`, `make_pot_feature` and the one-hot and wall encodings. These are pure functions.
- `PlayerFeatures`: the body of the first `for i, player` loop. It is written as methods that update the dictionary entry by entry, with specification functions beside them.
- `Assembly`: the three loops and the whole encoder.
- `Layout`: the layout, length and failure theorems.

The game's queries are fields of `Env`, given once per call:

- shortest paths: `get_deltas_to_closest_location`, and the argmin of `min_cost_to_feature`;
- pot states: `get_*_pots`;
- locations: `get_*_locations` and the counter-object dictionary;
- `get_adjacent_features`;
- `pos_distance`.

The model says nothing about how the game computes these queries. It states how the encoder uses their answers.

Where the doc comment and the code disagree, the model follows the code:

- **Per-player length.** The doc comment gives `num_pots*10 + 28` (support_rohan.py:19). The code produces 22 + 10·num_pots + one bit per adjacent square. With the game's four directions that is 26 + 10·num_pots (`Layout.PlayerResultsShape`, `Layout.FeatureRowLength`).
- **Cook time.** The doc comment gives −1 when nothing cooks (line 28). The code writes 0 for a missing pot, an empty pot and an idle soup (`Encoders.MakePotFeature`, `Encoders.PotFeatureValues`).

## Model

| member | source | states |
|---|---|---|
| Overcooked.DirectionIndex | support_rohan.py:172 | `DIRECTION_TO_INDEX` is the inverse of the game's direction table. |
| Overcooked.Count | support_rohan.py:68-72 | `Counter(s)[x]` is the multiplicity of `x` in `s`. |
| Overcooked.Remove | support_rohan.py:252-253 | `list.remove` succeeds exactly when the element is in the list, and raises otherwise. |
| Overcooked.RemoveFirst | support_rohan.py:253 | `list.remove` drops the first occurrence of the element, and the rest of the list keeps its order. |
| Overcooked.RemoveOne | support_rohan.py:253 | `list.remove` takes out exactly the first occurrence and keeps the rest in order: the length drops by one and the multiset loses one copy. |
| OrderedDicts.Assign | support_rohan.py:173-186 | `d[k] = v`: an existing key keeps its place, and a new key goes last. The map view is the old map updated at `k`. |
| OrderedDicts.MergeIsUnion | support_rohan.py:43-44 | `{**a, **b}` is the union of the two maps, the right one winning, and keeps keys distinct. |
| OrderedDicts.MergeFresh | support_rohan.py:43-44 | With no key in common, `{**a, **b}` is `a` followed by `b`: nothing is overwritten or reordered. |
| OrderedDicts.FlatValuesAppend | support_rohan.py:281 | Concatenating a dictionary's values distributes over appending dictionaries. |
| OrderedDicts.FlattenAppend | support_rohan.py:305-316 | `np.concatenate` distributes over list concatenation. |
| FeatureKeys.PrefixMatchesIff | support_rohan.py:279 | The test on a key's first two characters holds exactly when i < 10 and the key's player index starts with the digit i. |
| FeatureKeys.PrefixMatchesBelowTen | support_rohan.py:279 | For keys of players below ten, the prefix test selects exactly player i's keys. |
| Encoders.OrientationFeature | support_rohan.py:172-175 | Length 4. The only 1 is at `DIRECTION_TO_INDEX[orientation]` and every other entry is 0. Reading the 1 back gives the direction. |
| Encoders.ObjIndex | support_rohan.py:164-165 | `OBJ_TO_IDX` is the inverse of `IDX_TO_OBJ`. |
| Encoders.HeldObjectFeature | support_rohan.py:176-186 | Zeros when nothing is held. A one-hot row at the held object's index when its name is in `IDX_TO_OBJ`. Otherwise the KeyError, and only then. |
| Encoders.HeldObjectRoundTrip | support_rohan.py:52-53 | Decoding the held-object feature gives back the held name ("none" for an empty hand) that `make_closest_feature` compares against. |
| Encoders.IngredientCount | support_rohan.py:66-72 | The soup's onion or tomato count is the multiplicity in its ingredient list, and 0 without an object. |
| Encoders.MakeClosestFeature | support_rohan.py:46-78 | The keys, in order. (0, 0) when the item is held. Otherwise the offsets from the closest-location query. For soup, the ingredient counts of the held soup or of the object on the closest square. 2 numbers, or 4 for soup. |
| Encoders.HeldItemSkipsLookup | support_rohan.py:54-60 | When the item is held, the result does not depend on the closest-location query. |
| Encoders.PotBlock | support_rohan.py:137-160 | The nine pot keys come in insertion order, all distinct. The values flatten to the eight scalars followed by the offsets. |
| Encoders.MakePotFeature | support_rohan.py:80-162 | The nine pot keys and ten numbers. All zeros with no pot. With a pot, success exactly when the pot is empty or holds an object, and the missing-object error otherwise. |
| Encoders.PotFeatureValues | support_rohan.py:114-160 | For a pot that is there: `exists` is 1; the four state bits are membership in the pot-state lists; the counts are 0 for an empty pot and the soup's multiplicities otherwise; cook time is 0 when idle and the remaining time otherwise, so it is never negative; the offsets to the pot close the block. |
| Encoders.WallBit | support_rohan.py:259-262 | One bit, 0 exactly when the terrain is " ". |
| PlayerFeatures.ClosestFeatureShape | support_rohan.py:188-239 | One item's closest feature holds 2 numbers (4 for soup), all under player i's keys. |
| PlayerFeatures.ClosestFeaturesShape | support_rohan.py:188-239 | The six closest-item features hold 14 numbers, all under player i's keys. |
| PlayerFeatures.HeadEntriesShape | support_rohan.py:170-239 | Orientation, held object and closest items hold 22 numbers under player i's keys. They fail exactly when the held object is unknown. |
| PlayerFeatures.WallEntriesFlat | support_rohan.py:255-262 | The wall keys are `wall_0`, `wall_1`, ... of player i, one per adjacent square in the game's order. Their values flatten to one bit per square, 0 exactly for floor. |
| PlayerFeatures.PotLoopIsBlocksOfSlots | support_rohan.py:241-253 | The closest-pot loop outputs one pot block per slot, for the pots it finds in turn. |
| PlayerFeatures.PotSlotsLength | support_rohan.py:243 | The loop fills exactly `num_pots` slots. |
| PlayerFeatures.PotSlotsFromList | support_rohan.py:242-246 | Every pot found is one of the layout's pots. |
| PlayerFeatures.PotSlotsDistinct | support_rohan.py:242-253 | When the layout lists each pot once, no pot is found twice. |
| PlayerFeatures.NoPotStaysNoPot | support_rohan.py:243-253 | With no pot found, the list is unchanged and no pot is found in any later iteration. |
| PlayerFeatures.PotSlotsNoneStays | support_rohan.py:243-253 | Once a slot is empty, every later slot is empty. |
| PlayerFeatures.PotBlocksBlock | support_rohan.py:243-250 | The l-th block of ten numbers is the pot feature of the l-th slot found. |
| PlayerFeatures.PotLoopZerosAfterNone | support_rohan.py:241-253 | The loop yields 10·num_pots numbers. Once a slot finds no pot, that block and every later one are ten zeros. |
| PlayerFeatures.RemoveShrinks | support_rohan.py:253 | After removal the list is a part of the old one. Without repeats it no longer holds the removed pot and still has no repeats. |
| PlayerFeatures.PotLoopShape | support_rohan.py:241-253 | The pot loop yields 10·num_pots numbers, all under player i's keys. |
| PlayerFeatures.PlayerEntriesShape | support_rohan.py:170-262 | One player's features hold 22 + 10·num_pots + one per adjacent square numbers, all under that player's keys. |
| PlayerFeatures.ConcatClosest | support_rohan.py:189-198 | Merging one closest-item dictionary appends its entries, because its keys are new. |
| PlayerFeatures.ConcatClosestFeatures | support_rohan.py:188-239 | The six merges append the six closest-item features in source order. |
| PlayerFeatures.AddHeadFeatures | support_rohan.py:170-239 | The item assignments and merges append orientation, held object and closest items, or raise the held object's KeyError. |
| PlayerFeatures.ConcatPot | support_rohan.py:247-250 | Merging a pot block appends it, because its keys are new. |
| PlayerFeatures.AddPotFeatures | support_rohan.py:241-253 | The pot loop on a copy of the pot list appends exactly the blocks `PotLoop` specifies, or raises what the source raises. |
| PlayerFeatures.AddWallFeatures | support_rohan.py:255-262 | The wall loop appends one wall bit per adjacent square. |
| PlayerFeatures.AddPlayerFeatures | support_rohan.py:170-262 | The loop body appends exactly player i's entries to the dictionary, or raises. The keys stay fresh for the next player. |
| Assembly.KeepsIsPrefixTest | support_rohan.py:276-280 | The closed-form prefix rule equals the test on the key's first two characters. |
| Assembly.SelectMembers | support_rohan.py:276-280 | The dictionary comprehension keeps exactly the entries whose key passes the test. |
| Assembly.ListsUpTo | support_rohan.py:274-297 | The second loop yields lists of equal length, one entry per player. |
| Assembly.RowsUpTo | support_rohan.py:301-318 | The third loop yields one row per player. |
| Assembly.CollectFeatures | support_rohan.py:170-262 | The first loop builds the concatenation of every player's entries, or the first error raised. |
| Assembly.RelativePositionsOf | support_rohan.py:284-293 | The inner loop collects player i's relative positions to every player not equal to it, in player order. |
| Assembly.GatherPlayerLists | support_rohan.py:274-297 | The second loop gathers each player's features, absolute position and relative positions, or raises on an empty concatenation. |
| Assembly.LayOutRows | support_rohan.py:300-318 | The third loop lays out one row per player, or raises when there is no other player. |
| Assembly.FeaturizeState | support_rohan.py:1-320 | The whole encoder returns `FeaturizeWith` under the player-index rule. |
| Layout.KeepsIff | support_rohan.py:279 | Both rules keep exactly player i's keys among players below ten. The player-index rule does so for every player. |
| Layout.SelectAppend | support_rohan.py:276-280 | Filtering distributes over appending dictionaries. |
| Layout.SelectOwned | support_rohan.py:276-280 | One player's entries are all kept, or none are. |
| Layout.PlayerResultsShape | support_rohan.py:170-262 | Each player's step yields only that player's keys: 22 + 10·num_pots + one per adjacent square numbers. |
| Layout.SelectAccumulated | support_rohan.py:274-281 | From the full dictionary, player i's comprehension gives back exactly player i's entries. |
| Layout.GatheredExactly | support_rohan.py:276-281 | With the player-index rule, or up to ten players, every player's gathered features are its own and not empty. |
| Layout.RelativePositionsOfDistinct | support_rohan.py:284-293 | With distinct players, the relative positions are `pos_distance(p_j, p_i)` for each j ≠ i, in order. |
| Layout.RelativePositionsNonEmpty | support_rohan.py:284-293 | With two distinct players or more, every player has a relative position. |
| Layout.RelativePositionsShape | support_rohan.py:35-36 | There are n − 1 relative positions, each a pair. |
| Layout.OtherFeaturesContent | support_rohan.py:305-307 | The other players' features, in index order, skipping i. |
| Layout.ListsUpToLayout | support_rohan.py:273-297 | The second loop records every player's own features, absolute position and concatenated relative positions. |
| Layout.ListsFromParts | support_rohan.py:273-297 | The second loop over all players gives the three lists in full. |
| Layout.RowsUpToLayout | support_rohan.py:300-318 | Each row is the player's own features, then the others', then the relative positions, then the absolute position. |
| Layout.LayoutFromParts | support_rohan.py:300-318 | The rows, for any per-player results whose keys are gathered back exactly. |
| Layout.FeaturizeLayout | support_rohan.py:15-38 | With n ≥ 2 distinct players, the encoder yields n rows. Row i is the player's own features, the others' features in index order, `pos_distance(p_j, p_i)` for each j ≠ i, then its position. |
| Layout.FeatureRowLength | support_rohan.py:15-38 | With four adjacent squares, each row has n·(26 + 10·num_pots) + 2·(n − 1) + 2 numbers. |
| Layout.SinglePlayerFails | support_rohan.py:285-293 | With one player, concatenating the empty list of relative positions raises. |
| Layout.PlayerOneTakesPlayerTensKeys | support_rohan.py:279 | Player 10's keys pass player 1's prefix test and fail player 10's. |
| Layout.PrefixListsOk | support_rohan.py:274-293 | Under the prefix test, the second loop gets through the first ten players. |
| Layout.ListsUpToEmptyFails | support_rohan.py:281 | A player whose comprehension is empty makes `np.concatenate` raise. |
| Layout.ElevenPlayersFail | support_rohan.py:279-281 | As written, the encoder raises on every game with eleven or more distinct players. |
| Layout.PrefixAgreesUpToTen | support_rohan.py:279 | Up to ten players, the prefix test and the player-index rule give the same result. |

## Left out

- The game's queries are inputs, and only their use is modelled. These include the shortest-path planner, the pot-state lists, the location lists, adjacent terrain, position differences and `get_object`.
- `Overcooked.Player` equality (line 287) compares position, orientation and held object, the fields the encoder reads. Players are assumed to carry no other state.
- numpy's float dtype from `np.eye` and `np.zeros` is modelled as integers. The final `np.squeeze` is left out because it changes nothing on a one-dimensional row.
- On lines 56, 73 and 74, `make_closest_feature` writes its keys with the enclosing loop's `i` instead of its `idx` parameter. Every call passes `idx = i`, so the model uses one index.
- `Overcooked.ObjectState`: the remaining cook time is a `nat`, because the game never reports a negative one. The game's soup class is not part of this model, so this is assumed, not derived. With it, `Encoders.PotFeatureValues` shows that cook time is never −1.
- `num_pots` is a `nat`. The default of 2 (line 1) is not modelled: every call passes the count explicitly. A negative count makes `range` empty and so acts like 0, and the model does not cover that case.
- The first loop's body is split into methods (head, pots, walls). They update the dictionary as the source does, and each is proved equal to the specification function of its part.
- `Assembly.Keeps`: the prefix test is stated in closed form, over the leading digit of the player index. `Assembly.KeepsIsPrefixTest` proves it equal to the test on the rendered key.
- `Assembly.FeaturizeState`: gathers keys with the corrected player-index rule (see Findings). `Assembly.Featurize` models the code as written.
- `Assembly.Select`: its own contract states only the length bound. Its meaning is stated by `Assembly.SelectMembers`.
- `marl/agents/learning.py` and `marl/agents/impala/builder.py` are not part of this model. They are device-parallel training and optimiser configuration, outside the encoder.

## Findings

| source | as written | input that shows it | evidently intended | confidence | as-written member | corrected member |
|---|---|---|---|---|---|---|
| support_rohan.py:279 | Player i's features are gathered by comparing a key's first two characters with "p" followed by str(i). | A game with 11 distinct players: "p10_..." starts with "p1", so player 1 takes player 10's keys. No key starts with "p10", so player 10's concatenation is empty and raises. | Gather exactly player i's keys, for any number of players. | high; not executed | Layout.ElevenPlayersFail | Assembly.FeaturizeState |

`Layout.PlayerOneTakesPlayerTensKeys` shows the key clash. `Layout.FeaturizeLayout` and `Layout.FeatureRowLength` prove the documented layout for the player-index rule with any number of players. `Layout.PrefixAgreesUpToTen` shows that the corrected encoder returns what the code as written returns for up to ten players.
