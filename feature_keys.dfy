/** Keys of the featurizer's dictionary. Every key is "p{i}_" followed by the
    name of a feature of player i; the model keeps the player index and the
    feature apart (`Key`) and renders the string only where the source reads
    it: the two-character prefix test that gathers one player's features. */
module FeatureKeys {

  /** The six kinds of square whose closest instance is encoded. */
  datatype Item = Onion | Tomato | Dish | Soup | Serving | EmptyCounter

  function ItemName(it: Item): string
  {
    match it
    case Onion => "onion"
    case Tomato => "tomato"
    case Dish => "dish"
    case Soup => "soup"
    case Serving => "serving"
    case EmptyCounter => "empty_counter"
  }

  /** The ten per-pot features, in the order they are inserted. */
  datatype PotField =
    | Exists | IsEmpty | IsFull | IsCooking | IsReady
    | NumOnions | NumTomatoes | CookTime | PotDelta

  const PotFields: seq<PotField> :=
    [Exists, IsEmpty, IsFull, IsCooking, IsReady, NumOnions, NumTomatoes, CookTime, PotDelta]

  function PotFieldSuffix(f: PotField): string
  {
    match f
    case Exists => "_exists"
    case IsEmpty => "_is_empty"
    case IsFull => "_is_full"
    case IsCooking => "_is_cooking"
    case IsReady => "_is_ready"
    case NumOnions => "_num_onions"
    case NumTomatoes => "_num_tomatoes"
    case CookTime => "_cook_time"
    case PotDelta => ""
  }

  datatype Field =
    | Orientation
    | Objs
    | Closest(item: Item)
    | SoupOnions
    | SoupTomatoes
    | Pot(potIdx: nat, potField: PotField)
    | Wall(direction: nat)

  datatype Key = Key(player: nat, field: Field)

  function Digit(n: nat): char
    requires n < 10
  {
    ('0' as int + n) as char
  }

  /** `str(n)`. */
  function Decimal(n: nat): (s: string)
    ensures |s| >= 1 && (|s| == 1 <==> n < 10)
  {
    if n < 10 then [Digit(n)] else Decimal(n / 10) + [Digit(n % 10)]
  }

  function FieldName(f: Field): string
  {
    match f
    case Orientation => "orientation"
    case Objs => "objs"
    case Closest(it) => "closest_" + ItemName(it)
    case SoupOnions => "closest_soup_n_onions"
    case SoupTomatoes => "closest_soup_n_tomatoes"
    case Pot(j, pf) => "closest_pot_" + Decimal(j) + PotFieldSuffix(pf)
    case Wall(d) => "wall_" + Decimal(d)
  }

  /** The dictionary key as the source writes it, "p{}_...".format(i). */
  function Render(k: Key): string
  {
    "p" + Decimal(k.player) + "_" + FieldName(k.field)
  }

  /** `s[:2]`. */
  function Prefix2(s: string): string
  {
    if |s| <= 2 then s else s[..2]
  }

  /** The test `k[:2] == "p{}".format(i)` that decides whether key `k` is
      gathered into player i's features. */
  predicate PrefixMatches(k: Key, i: nat)
  {
    Prefix2(Render(k)) == "p" + Decimal(i)
  }

  /** The first digit of `n` written in decimal. */
  function LeadingDigit(n: nat): (d: nat)
    ensures d < 10 && (n < 10 ==> d == n)
  {
    if n < 10 then n else LeadingDigit(n / 10)
  }

  lemma {:induction false} DecimalStartsWithLeadingDigit(n: nat)
    ensures Decimal(n)[0] == Digit(LeadingDigit(n))
  {
    if n >= 10 {
      DecimalStartsWithLeadingDigit(n / 10);
    }
  }

  /** What the prefix test really selects: nothing at all for i >= 10, and
      for i < 10 every player whose index starts with the digit i (so player
      1 also takes the keys of players 10 to 19). */
  lemma PrefixMatchesIff(k: Key, i: nat)
    ensures PrefixMatches(k, i) <==> i < 10 && LeadingDigit(k.player) == i
  {
    var r := Render(k);
    var p := Decimal(k.player);
    assert r == ['p'] + p + ['_'] + FieldName(k.field);
    assert Prefix2(r) == ['p', p[0]];
    DecimalStartsWithLeadingDigit(k.player);
    if i < 10 {
      assert "p" + Decimal(i) == ['p', Digit(i)];
    }
  }

  /** Below ten players the prefix test selects exactly the keys of player i. */
  lemma PrefixMatchesBelowTen(k: Key, i: nat)
    requires k.player < 10
    ensures PrefixMatches(k, i) <==> k.player == i
  {
    PrefixMatchesIff(k, i);
  }
}
