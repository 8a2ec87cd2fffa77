/** The flat and hidden vectors of an observation (`fill_flat_visible`,
    `fill_flat_concealed`, `generate_flat`, `generate_hidden`).

    Flat layout, for P seats (length 29 + 8P):
      0 .. 26              the observer's own hand, in full
      19+8k .. 26+8k       the hand totals of the seat at offset k, 1 <= k < P
      19+8P .. 24+8P       the bank: five resource counts, development-card total
      25+8P .. 28+8P       the four phase flags
    The opponent blocks start at 27 and follow one another, so 19 + 8k is the
    first cell after block k - 1. */
module ObservationFlat {
  import opened Catan

  function Flag(b: bool): int { if b then 1 else 0 }

  /** Field i of the 27 cells `fill_flat_visible` writes: 0..4 resource
      counts, 5..7 road, settlement and city pieces, 8 knights, 9..13
      development cards, 14..18 newly bought development cards, 19..24 harbor
      flags, 25 longest-road flag, 26 largest-army flag. */
  function VisibleCell(hand: Hand, hasLongestRoad: bool, hasLargestArmy: bool, i: nat): int
    requires hand.WellFormed() && i < 27
  {
    if i < 5 then hand.resources[i]
    else if i == 5 then hand.roadPieces
    else if i == 6 then hand.settlementPieces
    else if i == 7 then hand.cityPieces
    else if i == 8 then hand.knights
    else if i < 14 then hand.developmentCards[i - 9]
    else if i < 19 then hand.newDevelopmentCards[i - 14]
    else if i < 25 then Flag(hand.harbor[i - 19])
    else if i == 25 then Flag(hasLongestRoad)
    else Flag(hasLargestArmy)
  }

  function VisibleBlock(hand: Hand, hasLongestRoad: bool, hasLargestArmy: bool): (b: seq<int>)
    requires hand.WellFormed()
    ensures |b| == 27
  {
    seq(27, i requires 0 <= i < 27 => VisibleCell(hand, hasLongestRoad, hasLargestArmy, i))
  }

  /** The aggregate view of a hand that opponents get. */
  datatype Summary = Summary(
    resourceTotal: nat,
    roadPieces: nat,
    settlementPieces: nat,
    cityPieces: nat,
    knights: nat,
    developmentTotal: nat,
    hasLongestRoad: bool,
    hasLargestArmy: bool)

  function Summarize(hand: Hand, hasLongestRoad: bool, hasLargestArmy: bool): Summary {
    Summary(Total(hand.resources), hand.roadPieces, hand.settlementPieces, hand.cityPieces,
            hand.knights, Total(hand.developmentCards), hasLongestRoad, hasLargestArmy)
  }

  function EncodeSummary(s: Summary): (b: seq<int>)
    ensures |b| == 8
  {
    [s.resourceTotal, s.roadPieces, s.settlementPieces, s.cityPieces, s.knights,
     s.developmentTotal, Flag(s.hasLongestRoad), Flag(s.hasLargestArmy)]
  }

  /** The 8 cells `fill_flat_concealed` writes. */
  function ConcealedBlock(hand: Hand, hasLongestRoad: bool, hasLargestArmy: bool): (b: seq<int>)
    ensures |b| == 8
  {
    EncodeSummary(Summarize(hand, hasLongestRoad, hasLargestArmy))
  }

  function AsNat(v: int): nat { if v < 0 then 0 else v }

  function DecodeSummary(b: seq<int>): Summary
    requires |b| == 8
  {
    Summary(AsNat(b[0]), AsNat(b[1]), AsNat(b[2]), AsNat(b[3]), AsNat(b[4]), AsNat(b[5]), b[6] == 1, b[7] == 1)
  }

  /** The concealed block loses nothing of the summary: no two fields share a cell. */
  lemma SummaryRoundTrip(s: Summary)
    ensures DecodeSummary(EncodeSummary(s)) == s
  {
  }

  /** Reads a hand and the two holder flags back from a visible block. */
  function DecodeVisible(b: seq<int>): (Hand, bool, bool)
    requires |b| == 27
  {
    (Hand(seq(5, i requires 0 <= i < 5 => AsNat(b[i])),
          AsNat(b[5]), AsNat(b[6]), AsNat(b[7]), AsNat(b[8]),
          seq(5, i requires 0 <= i < 5 => AsNat(b[9 + i])),
          seq(5, i requires 0 <= i < 5 => AsNat(b[14 + i])),
          seq(6, i requires 0 <= i < 6 => b[19 + i] == 1)),
     b[25] == 1, b[26] == 1)
  }

  /** The visible block loses nothing of the hand: every field has cells of its own. */
  lemma VisibleRoundTrip(hand: Hand, hasLongestRoad: bool, hasLargestArmy: bool)
    requires hand.WellFormed()
    ensures DecodeVisible(VisibleBlock(hand, hasLongestRoad, hasLargestArmy)) == (hand, hasLongestRoad, hasLargestArmy)
  {
    var b := VisibleBlock(hand, hasLongestRoad, hasLargestArmy);
    var (h, lr, la) := DecodeVisible(b);
    assert h.resources == hand.resources;
    assert h.developmentCards == hand.developmentCards;
    assert h.newDevelopmentCards == hand.newDevelopmentCards;
    assert h.harbor == hand.harbor;
  }

  /** The cells of `a` outside index..index+done are those of `before`, and
      the first `done` cells from index on hold the visible block. */
  ghost predicate Filled(a: array<int>, before: seq<int>, index: nat, hand: Hand, lr: bool, la: bool, done: nat)
    reads a
    requires hand.WellFormed()
  {
    && |before| == a.Length
    && done <= 27
    && index + 27 <= a.Length
    && forall j :: 0 <= j < a.Length ==>
         a[j] == if index <= j < index + done then VisibleCell(hand, lr, la, j - index) else before[j]
  }

  /** One cell write `array[index + done] = v` of `fill_flat_visible`, in field order. */
  method PutVisible(a: array<int>, ghost before: seq<int>, index: nat, hand: Hand, lr: bool, la: bool,
                    done: nat, v: int)
    requires hand.WellFormed() && done < 27
    requires Filled(a, before, index, hand, lr, la, done)
    requires v == VisibleCell(hand, lr, la, done)
    modifies a
    ensures Filled(a, before, index, hand, lr, la, done + 1)
  {
    a[index + done] := v;
  }

  method FillFlatVisible(a: array<int>, index: nat, hand: Hand, hasLongestRoad: bool, hasLargestArmy: bool)
    requires hand.WellFormed() && index + 27 <= a.Length
    modifies a
    ensures forall j :: 0 <= j < a.Length ==>
      a[j] == if index <= j < index + 27 then VisibleBlock(hand, hasLongestRoad, hasLargestArmy)[j - index]
              else old(a[j])
  {
    ghost var before := a[..];
    var lr, la := hasLongestRoad, hasLargestArmy;
    for res := 0 to ResourceCount
      invariant Filled(a, before, index, hand, lr, la, res)
    {
      PutVisible(a, before, index, hand, lr, la, res, hand.resources[res]);
    }
    PutVisible(a, before, index, hand, lr, la, 5, hand.roadPieces);
    PutVisible(a, before, index, hand, lr, la, 6, hand.settlementPieces);
    PutVisible(a, before, index, hand, lr, la, 7, hand.cityPieces);
    PutVisible(a, before, index, hand, lr, la, 8, hand.knights);
    for d := 0 to DevelopmentCardCount
      invariant Filled(a, before, index, hand, lr, la, 9 + d)
    {
      PutVisible(a, before, index, hand, lr, la, 9 + d, hand.developmentCards[d]);
    }
    for d := 0 to DevelopmentCardCount
      invariant Filled(a, before, index, hand, lr, la, 14 + d)
    {
      PutVisible(a, before, index, hand, lr, la, 14 + d, hand.newDevelopmentCards[d]);
    }
    for h := 0 to HarborCount
      invariant Filled(a, before, index, hand, lr, la, 19 + h)
    {
      PutVisible(a, before, index, hand, lr, la, 19 + h, if hand.harbor[h] then 1 else 0);
    }
    PutVisible(a, before, index, hand, lr, la, 25, if hasLongestRoad then 1 else 0);
    PutVisible(a, before, index, hand, lr, la, 26, if hasLargestArmy then 1 else 0);
  }

  method FillFlatConcealed(a: array<int>, index: nat, hand: Hand, hasLongestRoad: bool, hasLargestArmy: bool)
    requires index + 8 <= a.Length
    modifies a
    ensures forall j :: 0 <= j < a.Length ==>
      a[j] == if index <= j < index + 8 then ConcealedBlock(hand, hasLongestRoad, hasLargestArmy)[j - index]
              else old(a[j])
  {
    a[index] := Total(hand.resources);
    a[index + 1] := hand.roadPieces;
    a[index + 2] := hand.settlementPieces;
    a[index + 3] := hand.cityPieces;
    a[index + 4] := hand.knights;
    a[index + 5] := Total(hand.developmentCards);
    a[index + 6] := if hasLongestRoad then 1 else 0;
    a[index + 7] := if hasLargestArmy then 1 else 0;
  }

  // ---------------------------------------------------------------------
  // The flat vector

  function FlatLength(playerCount: nat): nat { 29 + 8 * playerCount }

  /** The block a flat cell belongs to, and its field within that block. */
  datatype Region =
    | OwnHand(field: nat)
    | Opponent(offset: nat, field: nat)
    | Bank(field: nat)
    | PhaseFlag(field: nat)

  predicate ValidRegion(playerCount: nat, r: Region) {
    match r
    case OwnHand(f) => f < 27
    case Opponent(k, f) => 1 <= k < playerCount && f < 8
    case Bank(f) => f < 6
    case PhaseFlag(f) => f < 4
  }

  /** Where a region's cell lies: the offsets `generate_flat` writes at. */
  function OffsetOf(playerCount: nat, r: Region): nat {
    match r
    case OwnHand(f) => f
    case Opponent(k, f) => 19 + k * 8 + f
    case Bank(f) => 19 + playerCount * 8 + f
    case PhaseFlag(f) => 19 + playerCount * 8 + 6 + f
  }

  function RegionOf(playerCount: nat, j: nat): Region
    requires playerCount >= 1 && j < FlatLength(playerCount)
  {
    if j < 27 then OwnHand(j)
    else if j < 19 + 8 * playerCount then Opponent((j - 19) / 8, (j - 19) % 8)
    else if j < 25 + 8 * playerCount then Bank(j - 19 - 8 * playerCount)
    else PhaseFlag(j - 25 - 8 * playerCount)
  }

  /** Every cell of the flat vector lies in exactly one region: each cell
      names a valid region whose offset is that cell... */
  lemma RegionOfCell(playerCount: nat, j: nat)
    requires playerCount >= 1 && j < FlatLength(playerCount)
    ensures ValidRegion(playerCount, RegionOf(playerCount, j))
    ensures OffsetOf(playerCount, RegionOf(playerCount, j)) == j
  {
    if 27 <= j < 19 + 8 * playerCount {
      var k, f := (j - 19) / 8, (j - 19) % 8;
      assert j - 19 == k * 8 + f;
    }
  }

  /** ...and each valid region lies inside the vector and is the region of its
      offset, so no two regions share a cell. */
  lemma CellOfRegion(playerCount: nat, r: Region)
    requires playerCount >= 1 && ValidRegion(playerCount, r)
    ensures OffsetOf(playerCount, r) < FlatLength(playerCount)
    ensures RegionOf(playerCount, OffsetOf(playerCount, r)) == r
  {
    if r.Opponent? {
      var k, f := r.offset, r.field;
      assert k * 8 <= (playerCount - 1) * 8;
      DivModUnique(k * 8 + f, k, f, 8);
    }
  }

  function SeatHand(state: State, seat: nat): Hand
    requires state.WellFormed() && seat < state.playerCount
  {
    state.hands[seat]
  }

  /** The bank block: five resource counts, then the development-card total. */
  function BankBlock(state: State): (b: seq<int>)
    requires state.WellFormed()
    ensures |b| == 6
  {
    state.bankResources + [Total(state.bankDevelopmentCards)]
  }

  /** The four phase flags: pre-roll, development ready, road building and
      year of plenty (2 with two picks left, 1 with one); all 0 outside a turn. */
  function PhaseFlags(phase: Phase): (b: seq<int>)
    ensures |b| == 4
    ensures !phase.Turn? ==> b == [0, 0, 0, 0]
    ensures forall i :: 0 <= i < 4 ==> 0 <= b[i] <= 2
    ensures b[0] == 1 <==> phase.Turn? && phase.turnPhase.PreRoll?
    ensures b[1] == 1 <==> phase.Turn? && phase.developmentPhase.Ready?
    ensures b[0] <= 1 && b[1] <= 1
    ensures b[2] != 0 <==> phase.Turn? && phase.developmentPhase.RoadBuildingActive?
    ensures b[2] == 2 <==> phase.Turn? && phase.developmentPhase == RoadBuildingActive(true)
    ensures b[3] != 0 <==> phase.Turn? && phase.developmentPhase.YearOfPlentyActive?
    ensures b[3] == 2 <==> phase.Turn? && phase.developmentPhase == YearOfPlentyActive(true)
  {
    match phase
    case Setup => [0, 0, 0, 0]
    case Turn(_, turnPhase, developmentPhase) =>
      [if turnPhase.PreRoll? then 1 else 0,
       if developmentPhase.Ready? then 1 else 0,
       if developmentPhase.RoadBuildingActive? then (if developmentPhase.twoLeft then 2 else 1) else 0,
       if developmentPhase.YearOfPlentyActive? then (if developmentPhase.twoLeft then 2 else 1) else 0]
  }

  /** The preconditions of `generate_flat` and `generate_hidden`. */
  predicate FlatInputs(player: nat, state: State) {
    state.WellFormed() && player < state.playerCount
  }

  /** The value `generate_flat` leaves in cell j. */
  function FlatCell(player: nat, state: State, phase: Phase, j: nat): int
    requires FlatInputs(player, state) && j < FlatLength(state.playerCount)
  {
    var P := state.playerCount;
    RegionOfCell(P, j);
    match RegionOf(P, j)
    case OwnHand(f) =>
      VisibleBlock(SeatHand(state, player), state.longestRoad == Some(player), state.largestArmy == Some(player))[f]
    case Opponent(k, f) =>
      var seat := OffsetToPlayerId(player, k, P);
      ConcealedBlock(SeatHand(state, seat), state.longestRoad == Some(seat), state.largestArmy == Some(seat))[f]
    case Bank(f) => BankBlock(state)[f]
    case PhaseFlag(f) => PhaseFlags(phase)[f]
  }

  ghost predicate FlatHolds(flat: array<int>, player: nat, state: State, phase: Phase)
    reads flat
    requires FlatInputs(player, state)
  {
    && flat.Length == FlatLength(state.playerCount)
    && forall j :: 0 <= j < flat.Length ==> flat[j] == FlatCell(player, state, phase, j)
  }

  /** The first n cells of `flat` hold their final values and the rest are still 0. */
  ghost predicate FlatPrefix(flat: array<int>, player: nat, state: State, phase: Phase, n: nat)
    reads flat
    requires FlatInputs(player, state)
  {
    && flat.Length == FlatLength(state.playerCount)
    && n <= flat.Length
    && forall j :: 0 <= j < flat.Length ==> flat[j] == if j < n then FlatCell(player, state, phase, j) else 0
  }

  /** The phase block of `generate_flat`: written only during a turn. */
  method FillPhase(flat: array<int>, cPhase: nat, phase: Phase)
    requires cPhase + 4 <= flat.Length
    modifies flat
    ensures forall j :: 0 <= j < flat.Length ==>
      flat[j] == if phase.Turn? && cPhase <= j < cPhase + 4 then PhaseFlags(phase)[j - cPhase] else old(flat[j])
  {
    if phase.Turn? {
      flat[cPhase] := if phase.turnPhase.PreRoll? then 1 else 0;
      flat[cPhase + 1] := if phase.developmentPhase.Ready? then 1 else 0;
      flat[cPhase + 2] := match phase.developmentPhase
        case RoadBuildingActive(twoLeft) => if twoLeft then 2 else 1
        case _ => 0;
      flat[cPhase + 3] := match phase.developmentPhase
        case YearOfPlentyActive(twoLeft) => if twoLeft then 2 else 1
        case _ => 0;
    }
  }

  /** The opponent loop of `generate_flat`: the seat at offset k gets its
      concealed block at 19 + 8k. */
  method FillOpponents(flat: array<int>, player: nat, state: State, phase: Phase)
    requires FlatInputs(player, state) && FlatPrefix(flat, player, state, phase, 27)
    modifies flat
    ensures FlatPrefix(flat, player, state, phase, 19 + state.playerCount * 8)
  {
    var P := state.playerCount;
    var longestRoad := state.longestRoad;
    var largestArmy := state.largestArmy;
    for opp := 1 to P
      invariant FlatPrefix(flat, player, state, phase, 19 + opp * 8)
    {
      var playerIndex := 19 + opp * 8;
      var seat := OffsetToPlayerId(player, opp, P);
      FillFlatConcealed(flat, playerIndex, state.hands[seat], longestRoad == Some(seat), largestArmy == Some(seat));
      forall j | playerIndex <= j < playerIndex + 8
        ensures FlatCell(player, state, phase, j)
             == ConcealedBlock(state.hands[seat], longestRoad == Some(seat), largestArmy == Some(seat))[j - playerIndex]
      {
        OpponentBlock(player, state, phase, opp, j - playerIndex);
      }
    }
  }

  method GenerateFlat(player: nat, state: State, phase: Phase) returns (flat: array<int>)
    requires FlatInputs(player, state)
    ensures fresh(flat) && FlatHolds(flat, player, state, phase)
  {
    var P := state.playerCount;
    flat := new int[29 + P * 8](_ => 0);
    var longestRoad := state.longestRoad;
    var largestArmy := state.largestArmy;
    // Own hand: 27 cells
    FillFlatVisible(flat, 0, state.hands[player], longestRoad == Some(player), largestArmy == Some(player));
    assert FlatPrefix(flat, player, state, phase, 27);
    // Opponents: 8 cells each
    FillOpponents(flat, player, state, phase);
    // Bank: 6 cells
    var cState := 19 + P * 8;
    for res := 0 to ResourceCount
      invariant FlatPrefix(flat, player, state, phase, cState + res)
    {
      CellOfRegion(P, Bank(res));
      flat[cState + res] := state.bankResources[res];
    }
    CellOfRegion(P, Bank(5));
    flat[cState + 5] := Total(state.bankDevelopmentCards);
    assert FlatPrefix(flat, player, state, phase, cState + 6);
    // Phase: 4 cells
    var cPhase := cState + 6;
    forall j | cPhase <= j < cPhase + 4
      ensures FlatCell(player, state, phase, j) == PhaseFlags(phase)[j - cPhase]
    {
      CellOfRegion(P, PhaseFlag(j - cPhase));
    }
    ghost var filled := flat[..];
    FillPhase(flat, cPhase, phase);
    forall j | 0 <= j < flat.Length
      ensures flat[j] == FlatCell(player, state, phase, j)
    {
      if j < cPhase {
        assert flat[j] == filled[j];
      } else if !phase.Turn? {
        assert flat[j] == filled[j] == 0;
        assert PhaseFlags(phase)[j - cPhase] == 0;
      }
    }
  }

  // ---------------------------------------------------------------------
  // The hidden vector

  function HiddenLength(playerCount: nat): nat
    requires playerCount >= 1
  {
    (playerCount - 1) * 27
  }

  /** The value `generate_hidden` leaves in cell j: the block of the seat at
      offset k starts at (k - 1) * 27 and only its first 8 cells are written. */
  function HiddenCell(player: nat, state: State, j: nat): int
    requires FlatInputs(player, state) && j < HiddenLength(state.playerCount)
  {
    var P := state.playerCount;
    var k, f := j / 27 + 1, j % 27;
    var seat := OffsetToPlayerId(player, k, P);
    if f < 8 then
      ConcealedBlock(SeatHand(state, seat), state.longestRoad == Some(seat), state.largestArmy == Some(seat))[f]
    else 0
  }

  ghost predicate HiddenHolds(hidden: array<int>, player: nat, state: State)
    reads hidden
    requires FlatInputs(player, state)
  {
    && hidden.Length == HiddenLength(state.playerCount)
    && forall j :: 0 <= j < hidden.Length ==> hidden[j] == HiddenCell(player, state, j)
  }

  method GenerateHidden(player: nat, state: State, phase: Phase) returns (hidden: array<int>)
    requires FlatInputs(player, state)
    ensures fresh(hidden) && HiddenHolds(hidden, player, state)
  {
    var P := state.playerCount;
    var longestRoad := state.longestRoad;
    var largestArmy := state.largestArmy;
    hidden := new int[(P - 1) * 27](_ => 0);
    for opp := 1 to P
      invariant forall j :: 0 <= j < hidden.Length ==>
        hidden[j] == if j < (opp - 1) * 27 then HiddenCell(player, state, j) else 0
    {
      var playerIndex := (opp - 1) * 27;
      var seat := OffsetToPlayerId(player, opp, P);
      assert playerIndex + 27 <= hidden.Length;
      FillFlatConcealed(hidden, playerIndex, state.hands[seat], longestRoad == Some(seat), largestArmy == Some(seat));
      forall j | playerIndex <= j < playerIndex + 27
        ensures HiddenCell(player, state, j)
             == if j < playerIndex + 8
                then ConcealedBlock(state.hands[seat], longestRoad == Some(seat), largestArmy == Some(seat))[j - playerIndex]
                else 0
      {
        DivModUnique(j, opp - 1, j - playerIndex, 27);
      }
    }
  }

  // ---------------------------------------------------------------------
  // What the layout means

  /** A block's longest-road and largest-army cells are 1 exactly when its
      seat holds the card, so both are 0 when nobody holds it. */
  lemma HolderFlags(player: nat, state: State, phase: Phase, k: nat)
    requires FlatInputs(player, state) && k < state.playerCount
    ensures var P := state.playerCount;
      var seat := OffsetToPlayerId(player, k, P);
      var roadCell := if k == 0 then 25 else OffsetOf(P, Opponent(k, 6));
      var armyCell := if k == 0 then 26 else OffsetOf(P, Opponent(k, 7));
      && roadCell < FlatLength(P) && armyCell < FlatLength(P)
      && FlatCell(player, state, phase, roadCell) == (if state.longestRoad == Some(seat) then 1 else 0)
      && FlatCell(player, state, phase, armyCell) == (if state.largestArmy == Some(seat) then 1 else 0)
  {
    var P := state.playerCount;
    if k == 0 {
      assert OffsetToPlayerId(player, 0, P) == player by {
        DivModUnique(player, 0, player, P);
      }
    } else {
      CellOfRegion(P, Opponent(k, 6));
      CellOfRegion(P, Opponent(k, 7));
    }
  }

  /** The opponent block at offset k holds exactly that seat's summary. */
  lemma OpponentBlock(player: nat, state: State, phase: Phase, k: nat, f: nat)
    requires FlatInputs(player, state) && 1 <= k < state.playerCount && f < 8
    ensures var P := state.playerCount;
      var seat := OffsetToPlayerId(player, k, P);
      && 19 + 8 * k + f < FlatLength(P)
      && FlatCell(player, state, phase, 19 + 8 * k + f)
         == EncodeSummary(Summarize(state.hands[seat], state.longestRoad == Some(seat), state.largestArmy == Some(seat)))[f]
  {
    CellOfRegion(state.playerCount, Opponent(k, f));
  }

  /** The bank and phase cells sit at 19 + 8P and 25 + 8P. */
  lemma BankAndPhaseCells(player: nat, state: State, phase: Phase)
    requires FlatInputs(player, state)
    ensures var P := state.playerCount;
      && (forall f :: 0 <= f < 5 ==> FlatCell(player, state, phase, 19 + 8 * P + f) == state.bankResources[f])
      && FlatCell(player, state, phase, 24 + 8 * P) == Total(state.bankDevelopmentCards)
      && (forall f :: 0 <= f < 4 ==> FlatCell(player, state, phase, 25 + 8 * P + f) == PhaseFlags(phase)[f])
  {
    var P := state.playerCount;
    forall f | 0 <= f < 6 ensures RegionOf(P, 19 + 8 * P + f) == Bank(f) {
      CellOfRegion(P, Bank(f));
    }
    forall f | 0 <= f < 4 ensures RegionOf(P, 25 + 8 * P + f) == PhaseFlag(f) {
      CellOfRegion(P, PhaseFlag(f));
    }
  }

  /** The hidden block of the seat at offset k repeats, in its first 8 cells,
      that seat's opponent block of the flat vector; its other 19 cells are 0. */
  lemma HiddenMirrorsFlat(player: nat, state: State, phase: Phase, k: nat, f: nat)
    requires FlatInputs(player, state) && 1 <= k < state.playerCount && f < 27
    ensures var P := state.playerCount;
      && (k - 1) * 27 + f < HiddenLength(P)
      && HiddenCell(player, state, (k - 1) * 27 + f)
         == if f < 8 then FlatCell(player, state, phase, 19 + 8 * k + f) else 0
  {
    var P := state.playerCount;
    assert (k - 1) * 27 + f < HiddenLength(P) by {
      assert (k - 1) * 27 <= (P - 2) * 27;
    }
    DivModUnique((k - 1) * 27 + f, k - 1, f, 27);
    if f < 8 {
      OpponentBlock(player, state, phase, k, f);
    }
  }
}
