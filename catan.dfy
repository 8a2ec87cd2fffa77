/** The part of the external game engine that the observation encoder reads.
    None of this is the engine's code: these are the engine's values as plain
    datatypes, with the assumptions the encoder makes about them written out. */
module Catan {

  datatype Option<+T> = None | Some(value: T)

  datatype Result<+T, +E> = Ok(value: T) | Err(error: E)

  /** A Rust panic on the modelled path. */
  datatype Panic = BadResourceValue | UnwrapNone | IndexOutOfBounds

  newtype U8 = x: int | 0 <= x < 256

  newtype U16 = x: int | 0 <= x < 65536

  /** The five resources. */
  datatype Resource = Brick | Lumber | Ore | Grain | Wool

  const ResourceCount: nat := 5

  /** The engine's own numbering `Resource::to_usize`. The engine is not part of
      this model; its numbering is assumed to be the declaration order above,
      and the encoder relies only on it being a bijection onto 0..4. */
  function ResourceIndex(r: Resource): (i: nat)
    ensures i < ResourceCount
    ensures ResourceFromIndex(i) == r
  {
    match r
    case Brick => 0
    case Lumber => 1
    case Ore => 2
    case Grain => 3
    case Wool => 4
  }

  function ResourceFromIndex(i: nat): Resource
    requires i < ResourceCount
  {
    [Brick, Lumber, Ore, Grain, Wool][i]
  }

  /** The five development-card kinds, indexed by `DevelopmentCard::to_usize`;
      `DevelopmentCard::ALL` is assumed to list them in that order. */
  const DevelopmentCardCount: nat := 5

  /** The six harbor-access flags of a hand: one per resource, then generic. */
  const HarborCount: nat := 6

  function Total(s: seq<nat>): (t: nat)
    ensures s == [] ==> t == 0
  {
    if s == [] then 0 else Total(s[..|s| - 1]) + s[|s| - 1]
  }

  /** A player's hand. Counts are per resource and per development-card kind. */
  datatype Hand = Hand(
    resources: seq<nat>,
    roadPieces: nat,
    settlementPieces: nat,
    cityPieces: nat,
    knights: nat,
    developmentCards: seq<nat>,
    newDevelopmentCards: seq<nat>,
    harbor: seq<bool>)
  {
    predicate WellFormed() {
      && |resources| == ResourceCount
      && |developmentCards| == DevelopmentCardCount
      && |newDevelopmentCards| == DevelopmentCardCount
      && |harbor| == HarborCount
    }
  }

  /** A board coordinate (hex, path or intersection). */
  datatype Coord = Coord(q: int, r: int)

  datatype LandHex = Desert | Prod(resource: Resource, number: nat)

  datatype Hex = Water | Land(land: LandHex)

  /** `NoHarbor` stands for every harbor value the encoder ignores. */
  datatype Harbor = NoHarbor | Generic | Special(resource: Resource)

  datatype Building = Building(owner: nat, isCity: bool)

  /** Turn phases other than the pre-roll one are merged into `PostRoll`. */
  datatype TurnPhase = PreRoll | PostRoll

  /** Development phases other than the three the encoder names are merged into `CardPlayed`. */
  datatype DevelopmentPhase =
    | Ready
    | RoadBuildingActive(twoLeft: bool)
    | YearOfPlentyActive(twoLeft: bool)
    | CardPlayed

  /** Every phase that is not a turn (initial placement, end of game) is `Setup`. */
  datatype Phase =
    | Setup
    | Turn(player: nat, turnPhase: TurnPhase, developmentPhase: DevelopmentPhase)

  /** The game state: the layout's coordinate lists, the static and dynamic
      lookups the encoder unwraps, the thief, the hands, the bank and the two
      special-card holders (`None` where the engine has no holder). */
  datatype State = State(
    playerCount: nat,
    hexCoords: seq<Coord>,
    pathCoords: seq<Coord>,
    intersectionCoords: seq<Coord>,
    staticHexes: map<Coord, Hex>,
    staticHarbors: map<Coord, Harbor>,
    dynamicPaths: map<Coord, Option<nat>>,
    dynamicIntersections: map<Coord, Option<Building>>,
    thiefHex: Coord,
    hands: seq<Hand>,
    bankResources: seq<nat>,
    bankDevelopmentCards: seq<nat>,
    longestRoad: Option<nat>,
    largestArmy: Option<nat>)
  {
    /** What the engine guarantees of a state it hands out: every layout
        coordinate can be looked up (so no `unwrap` panics), one hand per seat. */
    predicate WellFormed() {
      && (forall c :: c in hexCoords ==> c in staticHexes)
      && (forall c :: c in pathCoords ==> c in dynamicPaths)
      && (forall c :: c in intersectionCoords ==> c in staticHarbors && c in dynamicIntersections)
      && |hands| == playerCount
      && (forall p :: 0 <= p < |hands| ==> hands[p].WellFormed())
      && |bankResources| == ResourceCount
      && |bankDevelopmentCards| == DevelopmentCardCount
    }
  }

  /** `relative::player_id_to_relative`, which is not part of this model:
      assumed to be the distance from the observer, modulo the seat count. */
  function PlayerIdToRelative(observer: nat, p: nat, count: nat): (r: nat)
    requires count > 0
    ensures r < count
  {
    (p - observer) % count
  }

  /** `relative::offset_to_player_id`, which is not part of this model:
      assumed to be the seat `offset` places after the observer. */
  function OffsetToPlayerId(observer: nat, offset: nat, count: nat): (p: nat)
    requires count > 0
    ensures p < count
  {
    (observer + offset) % count
  }

  lemma MulPositive(m: int, c: int)
    requires m >= 1 && c > 0
    ensures m * c >= c
  {
  }

  /** Euclidean division has one quotient and one remainder. */
  lemma DivModUnique(a: int, q: int, r: int, c: int)
    requires c > 0 && 0 <= r < c && a == q * c + r
    ensures a % c == r && a / c == q
  {
    var q', r' := a / c, a % c;
    assert a == q' * c + r';
    if q > q' {
      MulPositive(q - q', c);
    } else if q < q' {
      MulPositive(q' - q, c);
    }
  }

  /** The two helpers are inverse to each other on seats and offsets. */
  lemma RelativeOfOffset(observer: nat, k: nat, count: nat)
    requires observer < count && k < count
    ensures PlayerIdToRelative(observer, OffsetToPlayerId(observer, k, count), count) == k
  {
    if observer + k < count {
      DivModUnique(observer + k, 0, observer + k, count);
    } else {
      DivModUnique(observer + k, 1, observer + k - count, count);
    }
    var p := OffsetToPlayerId(observer, k, count);
    if p >= observer {
      DivModUnique(p - observer, 0, k, count);
    } else {
      DivModUnique(p - observer, -1, k, count);
    }
  }

  lemma OffsetOfRelative(observer: nat, p: nat, count: nat)
    requires observer < count && p < count
    ensures OffsetToPlayerId(observer, PlayerIdToRelative(observer, p, count), count) == p
  {
    if p >= observer {
      DivModUnique(p - observer, 0, p - observer, count);
    } else {
      DivModUnique(p - observer, -1, p - observer + count, count);
    }
    var r := PlayerIdToRelative(observer, p, count);
    if r + observer < count {
      DivModUnique(r + observer, 0, p, count);
    } else {
      DivModUnique(r + observer, 1, p, count);
    }
  }

  /** A seat is at offset k from the observer exactly when it is the seat
      k places after the observer. */
  lemma OwnerAtOffset(observer: nat, p: nat, k: nat, count: nat)
    requires observer < count && p < count && k < count
    ensures PlayerIdToRelative(observer, p, count) == k <==> p == OffsetToPlayerId(observer, k, count)
  {
    RelativeOfOffset(observer, k, count);
    OffsetOfRelative(observer, p, count);
  }
}
