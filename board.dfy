/** The board tensor of an observation (`generate_board`): a zero-filled
    width x height x (13 + 2P) array written cell by cell while the layout's
    hexes, paths and intersections are walked in order.

    Channel layout, for P seats:
      0..4            production number of a hex, by resource index
      5               desert
      6               thief
      7 .. 7+P-1      road, by owner's offset from the observer
      7+P .. 7+P+5    harbor kind (resource index, then 5 for generic)
      13+P .. 13+2P-1 building (1 settlement, 2 city), by owner's offset

    The array is specified by the ordered list of writes the loops perform: a
    cell holds the value of the last write to it, or 0 when nothing wrote it. */
module ObservationBoard {
  import opened Catan

  /** `PyObservationFormat`: tensor width and height, the coordinate map and
      whether observations carry the hidden vector. */
  datatype Format = Format(width: nat, height: nat, includeHidden: bool, cellOf: Coord -> (nat, nat))

  /** Every coordinate of `cs` is mapped inside the tensor's width and height. */
  predicate MapsInside(format: Format, cs: seq<Coord>) {
    forall c :: c in cs ==> format.cellOf(c).0 < format.width && format.cellOf(c).1 < format.height
  }

  function ChannelCount(playerCount: nat): nat { 13 + 2 * playerCount }

  const DesertChannel: nat := 5
  const ThiefChannel: nat := 6
  const RoadChannelBase: nat := 7

  function HarborChannelBase(playerCount: nat): nat { 7 + playerCount }

  function BuildingChannelBase(playerCount: nat): nat { HarborChannelBase(playerCount) + 6 }

  /** The channel offset of a harbor kind within the harbor block. */
  function HarborKind(h: Harbor): (k: nat)
    requires !h.NoHarbor?
    ensures k < 6
    ensures k == 5 <==> h.Generic?
  {
    match h
    case Generic => 5
    case Special(res) => ResourceIndex(res)
  }

  datatype Write = Write(x: nat, y: nat, channel: nat, value: int)

  /** The value of cell (x, y, ch) after the writes `ws`, on a zero-filled tensor. */
  function Written(ws: seq<Write>, x: nat, y: nat, ch: nat): int
  {
    if ws == [] then 0
    else
      var w := ws[|ws| - 1];
      if w.x == x && w.y == y && w.channel == ch then w.value else Written(ws[..|ws| - 1], x, y, ch)
  }

  predicate IsAt(w: Write, x: nat, y: nat, ch: nat) {
    w.x == x && w.y == y && w.channel == ch
  }

  predicate WrittenAt(ws: seq<Write>, x: nat, y: nat, ch: nat) {
    exists w :: w in ws && IsAt(w, x, y, ch)
  }

  /** A cell nothing wrote to is 0; a written cell holds the value of one of
      the writes to it. */
  lemma {:induction false} WrittenIsSomeWrite(ws: seq<Write>, x: nat, y: nat, ch: nat)
    ensures !WrittenAt(ws, x, y, ch) ==> Written(ws, x, y, ch) == 0
    ensures WrittenAt(ws, x, y, ch) ==>
      exists w :: w in ws && IsAt(w, x, y, ch) && w.value == Written(ws, x, y, ch)
  {
    if ws != [] {
      var init := ws[..|ws| - 1];
      var w := ws[|ws| - 1];
      assert ws == init + [w];
      WrittenIsSomeWrite(init, x, y, ch);
      if !IsAt(w, x, y, ch) {
        assert WrittenAt(ws, x, y, ch) ==> WrittenAt(init, x, y, ch);
      }
    }
  }

  /** When every write to a cell writes the same value, the cell holds that
      value exactly when something wrote it, and 0 otherwise. */
  lemma WrittenUniform(ws: seq<Write>, x: nat, y: nat, ch: nat, v: int)
    requires forall w :: w in ws && IsAt(w, x, y, ch) ==> w.value == v
    ensures Written(ws, x, y, ch) == if WrittenAt(ws, x, y, ch) then v else 0
  {
    WrittenIsSomeWrite(ws, x, y, ch);
  }

  /** The writes for one layout hex (source order: the land value, then the thief). */
  function HexWrites(format: Format, state: State, c: Coord): seq<Write>
    requires c in state.staticHexes
  {
    match state.staticHexes[c]
    case Water => []
    case Land(land) =>
      var (x, y) := format.cellOf(c);
      [match land
       case Desert => Write(x, y, DesertChannel, 1)
       case Prod(res, num) => Write(x, y, ResourceIndex(res), num)]
      + (if c == state.thiefHex then [Write(x, y, ThiefChannel, 1)] else [])
  }

  /** The write for one layout path: a road marks its owner's relative channel. */
  function PathWrites(format: Format, player: nat, state: State, c: Coord): seq<Write>
    requires c in state.dynamicPaths && state.playerCount > 0
  {
    match state.dynamicPaths[c]
    case None => []
    case Some(p) =>
      var (x, y) := format.cellOf(c);
      [Write(x, y, RoadChannelBase + PlayerIdToRelative(player, p, state.playerCount), 1)]
  }

  /** The writes for one layout intersection: its harbor kind, then its building. */
  function IntersectionWrites(format: Format, player: nat, state: State, c: Coord): seq<Write>
    requires c in state.staticHarbors && c in state.dynamicIntersections && state.playerCount > 0
  {
    var (x, y) := format.cellOf(c);
    var P := state.playerCount;
    var h := state.staticHarbors[c];
    (if h.NoHarbor? then [] else [Write(x, y, HarborChannelBase(P) + HarborKind(h), 1)])
    + match state.dynamicIntersections[c]
      case None => []
      case Some(b) =>
        [Write(x, y, BuildingChannelBase(P) + PlayerIdToRelative(player, b.owner, P), if b.isCity then 2 else 1)]
  }

  function HexesWrites(format: Format, state: State, cs: seq<Coord>): seq<Write>
    requires forall c :: c in cs ==> c in state.staticHexes
  {
    if cs == [] then []
    else HexesWrites(format, state, cs[..|cs| - 1]) + HexWrites(format, state, cs[|cs| - 1])
  }

  function PathsWrites(format: Format, player: nat, state: State, cs: seq<Coord>): seq<Write>
    requires (forall c :: c in cs ==> c in state.dynamicPaths) && state.playerCount > 0
  {
    if cs == [] then []
    else PathsWrites(format, player, state, cs[..|cs| - 1]) + PathWrites(format, player, state, cs[|cs| - 1])
  }

  function IntersectionsWrites(format: Format, player: nat, state: State, cs: seq<Coord>): seq<Write>
    requires forall c :: c in cs ==> c in state.staticHarbors && c in state.dynamicIntersections
    requires state.playerCount > 0
  {
    if cs == [] then []
    else IntersectionsWrites(format, player, state, cs[..|cs| - 1])
         + IntersectionWrites(format, player, state, cs[|cs| - 1])
  }

  /** Every write `generate_board` performs, in order. */
  function BoardWrites(format: Format, player: nat, state: State): seq<Write>
    requires state.WellFormed() && player < state.playerCount
  {
    HexesWrites(format, state, state.hexCoords)
    + PathsWrites(format, player, state, state.pathCoords)
    + IntersectionsWrites(format, player, state, state.intersectionCoords)
  }

  /** The preconditions of `generate_board`: a well-formed state, an observer
      that is one of its seats and a coordinate map that stays inside the tensor. */
  predicate BoardInputs(format: Format, player: nat, state: State) {
    && state.WellFormed()
    && player < state.playerCount
    && MapsInside(format, state.hexCoords)
    && MapsInside(format, state.pathCoords)
    && MapsInside(format, state.intersectionCoords)
  }

  /** The array holds, at every cell, the value the writes `ws` leave there. */
  ghost predicate Holds(board: array3<int>, ws: seq<Write>)
    reads board
  {
    forall x, y, ch :: 0 <= x < board.Length0 && 0 <= y < board.Length1 && 0 <= ch < board.Length2 ==>
      board[x, y, ch] == Written(ws, x, y, ch)
  }

  /** One cell write, as each `board[(x, y, ch)] = v` of the source. */
  method Put(board: array3<int>, ghost ws: seq<Write>, w: Write)
    requires Holds(board, ws)
    requires w.x < board.Length0 && w.y < board.Length1 && w.channel < board.Length2
    modifies board
    ensures Holds(board, ws + [w])
  {
    board[w.x, w.y, w.channel] := w.value;
    assert (ws + [w])[..|ws|] == ws;
  }

  /** The body of the hex loop, for one hex. */
  method WriteHex(board: array3<int>, ghost ws: seq<Write>, format: Format, state: State, coord: Coord)
    requires coord in state.staticHexes && MapsInside(format, [coord])
    requires board.Length0 == format.width && board.Length1 == format.height && board.Length2 >= 7
    requires Holds(board, ws)
    modifies board
    ensures Holds(board, ws + HexWrites(format, state, coord))
  {
    var hex := state.staticHexes[coord];
    if hex.Land? {
      var (x, y) := format.cellOf(coord);
      var w := match hex.land
        case Desert => Write(x, y, DesertChannel, 1)
        case Prod(res, num) => Write(x, y, ResourceIndex(res), num);
      Put(board, ws, w);
      if coord == state.thiefHex {
        Put(board, ws + [w], Write(x, y, ThiefChannel, 1));
        assert ws + [w] + [Write(x, y, ThiefChannel, 1)] == ws + HexWrites(format, state, coord);
      } else {
        assert ws + [w] == ws + HexWrites(format, state, coord);
      }
    } else {
      assert ws + [] == ws;
    }
  }

  /** The body of the path loop, for one path. */
  method WritePath(board: array3<int>, ghost ws: seq<Write>, format: Format, player: nat, state: State, coord: Coord)
    requires coord in state.dynamicPaths && MapsInside(format, [coord]) && state.playerCount > 0
    requires board.Length0 == format.width && board.Length1 == format.height
    requires board.Length2 == ChannelCount(state.playerCount)
    requires Holds(board, ws)
    modifies board
    ensures Holds(board, ws + PathWrites(format, player, state, coord))
  {
    var path := state.dynamicPaths[coord];
    if path.Some? {
      var rel := PlayerIdToRelative(player, path.value, state.playerCount);
      var (x, y) := format.cellOf(coord);
      Put(board, ws, Write(x, y, RoadChannelBase + rel, 1));
    } else {
      assert ws + [] == ws;
    }
  }

  /** The body of the intersection loop, for one intersection. */
  method WriteIntersection(board: array3<int>, ghost ws: seq<Write>, format: Format, player: nat, state: State, coord: Coord)
    requires coord in state.staticHarbors && coord in state.dynamicIntersections
    requires MapsInside(format, [coord]) && state.playerCount > 0
    requires board.Length0 == format.width && board.Length1 == format.height
    requires board.Length2 == ChannelCount(state.playerCount)
    requires Holds(board, ws)
    modifies board
    ensures Holds(board, ws + IntersectionWrites(format, player, state, coord))
  {
    var P := state.playerCount;
    var cHarbor := 7 + P;
    var cBuildings := cHarbor + 6;
    var (x, y) := format.cellOf(coord);
    var harbor := state.staticHarbors[coord];
    ghost var hw: seq<Write> := [];
    match harbor {
      case Generic =>
        Put(board, ws, Write(x, y, cHarbor + 5, 1));
        hw := [Write(x, y, cHarbor + 5, 1)];
      case Special(res) =>
        Put(board, ws, Write(x, y, cHarbor + ResourceIndex(res), 1));
        hw := [Write(x, y, cHarbor + ResourceIndex(res), 1)];
      case NoHarbor =>
        assert ws + hw == ws;
    }
    var intersection := state.dynamicIntersections[coord];
    ghost var bw: seq<Write> := [];
    if intersection.Some? {
      var rel := PlayerIdToRelative(player, intersection.value.owner, P);
      var w := Write(x, y, cBuildings + rel, if intersection.value.isCity then 2 else 1);
      bw := [w];
      Put(board, ws + hw, w);
    } else {
      assert ws + hw + bw == ws + hw;
    }
    assert ws + hw + bw == ws + IntersectionWrites(format, player, state, coord);
  }

  /** The hex loop of `generate_board`: channels 0..6. */
  method FillHexes(board: array3<int>, ghost ws: seq<Write>, format: Format, state: State)
    requires state.WellFormed() && MapsInside(format, state.hexCoords)
    requires board.Length0 == format.width && board.Length1 == format.height && board.Length2 >= 7
    requires Holds(board, ws)
    modifies board
    ensures Holds(board, ws + HexesWrites(format, state, state.hexCoords))
  {
    ghost var done := ws;
    for i := 0 to |state.hexCoords|
      invariant done == ws + HexesWrites(format, state, state.hexCoords[..i])
      invariant Holds(board, done)
    {
      assert state.hexCoords[..i + 1][..i] == state.hexCoords[..i];
      WriteHex(board, done, format, state, state.hexCoords[i]);
      done := done + HexWrites(format, state, state.hexCoords[i]);
    }
    assert state.hexCoords[..|state.hexCoords|] == state.hexCoords;
  }

  /** The path loop of `generate_board`: channels 7..7+P-1. */
  method FillPaths(board: array3<int>, ghost ws: seq<Write>, format: Format, player: nat, state: State)
    requires BoardInputs(format, player, state)
    requires board.Length0 == format.width && board.Length1 == format.height
    requires board.Length2 == ChannelCount(state.playerCount)
    requires Holds(board, ws)
    modifies board
    ensures Holds(board, ws + PathsWrites(format, player, state, state.pathCoords))
  {
    ghost var done := ws;
    for i := 0 to |state.pathCoords|
      invariant done == ws + PathsWrites(format, player, state, state.pathCoords[..i])
      invariant Holds(board, done)
    {
      assert state.pathCoords[..i + 1][..i] == state.pathCoords[..i];
      WritePath(board, done, format, player, state, state.pathCoords[i]);
      done := done + PathWrites(format, player, state, state.pathCoords[i]);
    }
    assert state.pathCoords[..|state.pathCoords|] == state.pathCoords;
  }

  /** The intersection loop of `generate_board`: channels 7+P..13+2P-1. */
  method FillIntersections(board: array3<int>, ghost ws: seq<Write>, format: Format, player: nat, state: State)
    requires BoardInputs(format, player, state)
    requires board.Length0 == format.width && board.Length1 == format.height
    requires board.Length2 == ChannelCount(state.playerCount)
    requires Holds(board, ws)
    modifies board
    ensures Holds(board, ws + IntersectionsWrites(format, player, state, state.intersectionCoords))
  {
    ghost var done := ws;
    for i := 0 to |state.intersectionCoords|
      invariant done == ws + IntersectionsWrites(format, player, state, state.intersectionCoords[..i])
      invariant Holds(board, done)
    {
      assert state.intersectionCoords[..i + 1][..i] == state.intersectionCoords[..i];
      WriteIntersection(board, done, format, player, state, state.intersectionCoords[i]);
      done := done + IntersectionWrites(format, player, state, state.intersectionCoords[i]);
    }
    assert state.intersectionCoords[..|state.intersectionCoords|] == state.intersectionCoords;
  }

  method GenerateBoard(format: Format, player: nat, state: State) returns (board: array3<int>)
    requires BoardInputs(format, player, state)
    ensures fresh(board)
    ensures board.Length0 == format.width && board.Length1 == format.height
    ensures board.Length2 == ChannelCount(state.playerCount)
    ensures Holds(board, BoardWrites(format, player, state))
  {
    var P := state.playerCount;
    board := new int[format.width, format.height, 13 + 2 * P]((x, y, ch) => 0);
    FillHexes(board, [], format, state);
    ghost var hexWrites := HexesWrites(format, state, state.hexCoords);
    assert [] + hexWrites == hexWrites;
    FillPaths(board, hexWrites, format, player, state);
    ghost var pathWrites := hexWrites + PathsWrites(format, player, state, state.pathCoords);
    FillIntersections(board, pathWrites, format, player, state);
  }

  // ---------------------------------------------------------------------
  // What the board means: each channel class, read back from the writes.

  lemma {:induction false} InHexesWrites(format: Format, state: State, cs: seq<Coord>, w: Write)
    requires forall c :: c in cs ==> c in state.staticHexes
    ensures w in HexesWrites(format, state, cs) <==> exists c :: c in cs && w in HexWrites(format, state, c)
  {
    if cs != [] {
      var init := cs[..|cs| - 1];
      assert cs == init + [cs[|cs| - 1]];
      InHexesWrites(format, state, init, w);
    }
  }

  lemma {:induction false} InPathsWrites(format: Format, player: nat, state: State, cs: seq<Coord>, w: Write)
    requires (forall c :: c in cs ==> c in state.dynamicPaths) && state.playerCount > 0
    ensures w in PathsWrites(format, player, state, cs) <==>
      exists c :: c in cs && w in PathWrites(format, player, state, c)
  {
    if cs != [] {
      var init := cs[..|cs| - 1];
      assert cs == init + [cs[|cs| - 1]];
      InPathsWrites(format, player, state, init, w);
    }
  }

  lemma {:induction false} InIntersectionsWrites(format: Format, player: nat, state: State, cs: seq<Coord>, w: Write)
    requires forall c :: c in cs ==> c in state.staticHarbors && c in state.dynamicIntersections
    requires state.playerCount > 0
    ensures w in IntersectionsWrites(format, player, state, cs) <==>
      exists c :: c in cs && w in IntersectionWrites(format, player, state, c)
  {
    if cs != [] {
      var init := cs[..|cs| - 1];
      assert cs == init + [cs[|cs| - 1]];
      InIntersectionsWrites(format, player, state, init, w);
    }
  }

  /** Which loop a board write comes from, told apart by its channel. */
  lemma BoardWriteOrigin(format: Format, player: nat, state: State, w: Write)
    requires BoardInputs(format, player, state)
    requires w in BoardWrites(format, player, state)
    ensures w.x < format.width && w.y < format.height
    ensures w.channel < ChannelCount(state.playerCount)
    ensures w.channel < RoadChannelBase ==>
      exists c :: c in state.hexCoords && w in HexWrites(format, state, c)
    ensures RoadChannelBase <= w.channel < HarborChannelBase(state.playerCount) ==>
      exists c :: c in state.pathCoords && w in PathWrites(format, player, state, c)
    ensures HarborChannelBase(state.playerCount) <= w.channel ==>
      exists c :: c in state.intersectionCoords && w in IntersectionWrites(format, player, state, c)
  {
    InHexesWrites(format, state, state.hexCoords, w);
    InPathsWrites(format, player, state, state.pathCoords, w);
    InIntersectionsWrites(format, player, state, state.intersectionCoords, w);
  }

  /** What one hex writes: its land value at the resource or desert channel,
      then the thief flag. */
  lemma HexWriteFacts(format: Format, state: State, c: Coord, w: Write)
    requires c in state.staticHexes && w in HexWrites(format, state, c)
    ensures state.staticHexes[c].Land? && (w.x, w.y) == format.cellOf(c) && w.channel < RoadChannelBase
    ensures w.channel == ThiefChannel ==> w.value == 1 && c == state.thiefHex
    ensures w.channel == DesertChannel ==> w.value == 1 && state.staticHexes[c].land.Desert?
    ensures w.channel < ResourceCount ==>
      ProducesAt(format, state, c, w.x, w.y, w.channel) && w.value == state.staticHexes[c].land.number
  {
  }

  /** Channel 6 is 1 exactly at the cell of the thief's hex, when that is a
      land hex of the layout, and 0 everywhere else. */
  lemma ThiefCell(format: Format, player: nat, state: State, x: nat, y: nat)
    requires BoardInputs(format, player, state)
    ensures Written(BoardWrites(format, player, state), x, y, ThiefChannel) ==
      if && state.thiefHex in state.hexCoords
         && state.staticHexes[state.thiefHex].Land?
         && format.cellOf(state.thiefHex) == (x, y)
      then 1 else 0
  {
    var ws := BoardWrites(format, player, state);
    var t := state.thiefHex;
    forall w | w in ws && IsAt(w, x, y, ThiefChannel)
      ensures w.value == 1 && t in state.hexCoords && state.staticHexes[t].Land? && format.cellOf(t) == (x, y)
    {
      BoardWriteOrigin(format, player, state, w);
    }
    WrittenUniform(ws, x, y, ThiefChannel, 1);
    if t in state.hexCoords && state.staticHexes[t].Land? && format.cellOf(t) == (x, y) {
      var w := Write(x, y, ThiefChannel, 1);
      assert w in HexWrites(format, state, t);
      InHexesWrites(format, state, state.hexCoords, w);
      assert w in ws;
    }
  }

  /** Channel 5 is 1 exactly at the cells of desert hexes, 0 elsewhere. */
  lemma DesertCell(format: Format, player: nat, state: State, x: nat, y: nat)
    requires BoardInputs(format, player, state)
    ensures Written(BoardWrites(format, player, state), x, y, DesertChannel) ==
      if exists c :: c in state.hexCoords && state.staticHexes[c] == Land(Desert) && format.cellOf(c) == (x, y)
      then 1 else 0
  {
    var ws := BoardWrites(format, player, state);
    forall w | w in ws && IsAt(w, x, y, DesertChannel)
      ensures w.value == 1
      ensures exists c :: c in state.hexCoords && state.staticHexes[c] == Land(Desert) && format.cellOf(c) == (x, y)
    {
      BoardWriteOrigin(format, player, state, w);
    }
    WrittenUniform(ws, x, y, DesertChannel, 1);
    if c :| c in state.hexCoords && state.staticHexes[c] == Land(Desert) && format.cellOf(c) == (x, y) {
      var w := Write(x, y, DesertChannel, 1);
      assert w in HexWrites(format, state, c);
      InHexesWrites(format, state, state.hexCoords, w);
      assert w in ws;
    }
  }

  /** Channel i < 5 holds 0 where no production hex of resource index i lies,
      and otherwise the number of one such hex at that cell. */
  lemma ProductionCell(format: Format, player: nat, state: State, x: nat, y: nat, i: nat)
    requires BoardInputs(format, player, state) && i < ResourceCount
    ensures var v := Written(BoardWrites(format, player, state), x, y, i);
      || (v == 0 && !exists c :: c in state.hexCoords && ProducesAt(format, state, c, x, y, i))
      || (exists c :: c in state.hexCoords && ProducesAt(format, state, c, x, y, i)
                      && v == state.staticHexes[c].land.number)
  {
    var ws := BoardWrites(format, player, state);
    WrittenIsSomeWrite(ws, x, y, i);
    if c :| c in state.hexCoords && ProducesAt(format, state, c, x, y, i) {
      var w := Write(x, y, i, state.staticHexes[c].land.number);
      assert w in HexWrites(format, state, c);
      InHexesWrites(format, state, state.hexCoords, w);
      assert w in ws;
    }
    if WrittenAt(ws, x, y, i) {
      var w :| w in ws && IsAt(w, x, y, i) && w.value == Written(ws, x, y, i);
      BoardWriteOrigin(format, player, state, w);
      var c :| c in state.hexCoords && w in HexWrites(format, state, c);
      HexWriteFacts(format, state, c, w);
    }
  }

  /** Hex `c` is a production hex of resource index i mapped to (x, y). */
  predicate ProducesAt(format: Format, state: State, c: Coord, x: nat, y: nat, i: nat)
    requires c in state.staticHexes
  {
    && state.staticHexes[c].Land?
    && state.staticHexes[c].land.Prod?
    && ResourceIndex(state.staticHexes[c].land.resource) == i
    && format.cellOf(c) == (x, y)
  }

  /** Channel 7 + r is 1 exactly where a road of the seat at offset r from the
      observer lies, 0 elsewhere. */
  lemma RoadCell(format: Format, player: nat, state: State, x: nat, y: nat, r: nat)
    requires BoardInputs(format, player, state) && r < state.playerCount
    ensures Written(BoardWrites(format, player, state), x, y, RoadChannelBase + r) ==
      if exists c :: c in state.pathCoords && RoadAt(format, player, state, c, x, y, r) then 1 else 0
  {
    var ws := BoardWrites(format, player, state);
    forall w | w in ws && IsAt(w, x, y, RoadChannelBase + r)
      ensures w.value == 1
      ensures exists c :: c in state.pathCoords && RoadAt(format, player, state, c, x, y, r)
    {
      BoardWriteOrigin(format, player, state, w);
    }
    WrittenUniform(ws, x, y, RoadChannelBase + r, 1);
    if c :| c in state.pathCoords && RoadAt(format, player, state, c, x, y, r) {
      var w := Write(x, y, RoadChannelBase + r, 1);
      assert w in PathWrites(format, player, state, c);
      InPathsWrites(format, player, state, state.pathCoords, w);
      assert w in ws;
    }
  }

  /** Path `c` carries a road of the seat at offset r and is mapped to (x, y). */
  predicate RoadAt(format: Format, player: nat, state: State, c: Coord, x: nat, y: nat, r: nat)
    requires c in state.dynamicPaths && state.playerCount > 0
  {
    && state.dynamicPaths[c].Some?
    && PlayerIdToRelative(player, state.dynamicPaths[c].value, state.playerCount) == r
    && format.cellOf(c) == (x, y)
  }

  /** What one intersection writes: a harbor flag below the building block,
      a building level inside it. */
  lemma IntersectionWriteFacts(format: Format, player: nat, state: State, c: Coord, w: Write)
    requires c in state.staticHarbors && c in state.dynamicIntersections && state.playerCount > 0
    requires w in IntersectionWrites(format, player, state, c)
    ensures var P := state.playerCount;
      && HarborChannelBase(P) <= w.channel < ChannelCount(P)
      && (w.x, w.y) == format.cellOf(c)
      && (w.channel < BuildingChannelBase(P) ==>
            w.value == 1 && HarborAt(format, state, c, w.x, w.y, w.channel - HarborChannelBase(P)))
      && (BuildingChannelBase(P) <= w.channel ==>
            && BuildingAt(format, player, state, c, w.x, w.y, w.channel - BuildingChannelBase(P))
            && w.value == if state.dynamicIntersections[c].value.isCity then 2 else 1)
  {
  }

  /** Channel 7 + P + k is 1 exactly where an intersection with harbor kind k
      lies (k = 5 generic, else the resource index), 0 elsewhere. */
  lemma HarborCell(format: Format, player: nat, state: State, x: nat, y: nat, k: nat)
    requires BoardInputs(format, player, state) && k < 6
    ensures Written(BoardWrites(format, player, state), x, y, HarborChannelBase(state.playerCount) + k) ==
      if exists c :: c in state.intersectionCoords && HarborAt(format, state, c, x, y, k) then 1 else 0
  {
    var ws := BoardWrites(format, player, state);
    var ch := HarborChannelBase(state.playerCount) + k;
    forall w | w in ws && IsAt(w, x, y, ch)
      ensures w.value == 1
      ensures exists c :: c in state.intersectionCoords && HarborAt(format, state, c, x, y, k)
    {
      BoardWriteOrigin(format, player, state, w);
      var c :| c in state.intersectionCoords && w in IntersectionWrites(format, player, state, c);
      IntersectionWriteFacts(format, player, state, c, w);
    }
    WrittenUniform(ws, x, y, ch, 1);
    if c :| c in state.intersectionCoords && HarborAt(format, state, c, x, y, k) {
      var w := Write(x, y, ch, 1);
      assert w in IntersectionWrites(format, player, state, c);
      InIntersectionsWrites(format, player, state, state.intersectionCoords, w);
      assert w in ws;
    }
  }

  /** Intersection `c` has a harbor of kind k and is mapped to (x, y). */
  predicate HarborAt(format: Format, state: State, c: Coord, x: nat, y: nat, k: nat)
    requires c in state.staticHarbors
  {
    && !state.staticHarbors[c].NoHarbor?
    && HarborKind(state.staticHarbors[c]) == k
    && format.cellOf(c) == (x, y)
  }

  /** Channel 13 + P + r is 0 where the seat at offset r has no building, and
      otherwise 2 for a city or 1 for a settlement of that seat lying there. */
  lemma BuildingCell(format: Format, player: nat, state: State, x: nat, y: nat, r: nat)
    requires BoardInputs(format, player, state) && r < state.playerCount
    ensures var v := Written(BoardWrites(format, player, state), x, y, BuildingChannelBase(state.playerCount) + r);
      && (v == 0 <==> !exists c :: c in state.intersectionCoords && BuildingAt(format, player, state, c, x, y, r))
      && (v != 0 ==> exists c :: c in state.intersectionCoords && BuildingAt(format, player, state, c, x, y, r)
                              && v == if state.dynamicIntersections[c].value.isCity then 2 else 1)
  {
    var ws := BoardWrites(format, player, state);
    var ch := BuildingChannelBase(state.playerCount) + r;
    WrittenIsSomeWrite(ws, x, y, ch);
    if c :| c in state.intersectionCoords && BuildingAt(format, player, state, c, x, y, r) {
      var b := state.dynamicIntersections[c].value;
      var w := Write(x, y, ch, if b.isCity then 2 else 1);
      assert w in IntersectionWrites(format, player, state, c);
      InIntersectionsWrites(format, player, state, state.intersectionCoords, w);
      assert w in ws;
    }
    if WrittenAt(ws, x, y, ch) {
      var w :| w in ws && IsAt(w, x, y, ch) && w.value == Written(ws, x, y, ch);
      BoardWriteOrigin(format, player, state, w);
      var c :| c in state.intersectionCoords && w in IntersectionWrites(format, player, state, c);
      IntersectionWriteFacts(format, player, state, c, w);
      assert BuildingAt(format, player, state, c, x, y, r);
    }
  }

  /** Intersection `c` has a building of the seat at offset r and is mapped to (x, y). */
  predicate BuildingAt(format: Format, player: nat, state: State, c: Coord, x: nat, y: nat, r: nat)
    requires c in state.dynamicIntersections && state.playerCount > 0
  {
    && state.dynamicIntersections[c].Some?
    && PlayerIdToRelative(player, state.dynamicIntersections[c].value.owner, state.playerCount) == r
    && format.cellOf(c) == (x, y)
  }

  // ---------------------------------------------------------------------
  // The board and the flat vector name seats the same way: channel 7 + k and
  // channel 13 + P + k belong to the seat whose hand sits at flat offset k.

  /** Every road and building of the layout belongs to one of the seats. */
  predicate OwnersAreSeats(state: State) {
    && (forall c :: c in state.pathCoords && c in state.dynamicPaths && state.dynamicPaths[c].Some? ==>
          state.dynamicPaths[c].value < state.playerCount)
    && (forall c :: c in state.intersectionCoords && c in state.dynamicIntersections
                    && state.dynamicIntersections[c].Some? ==>
          state.dynamicIntersections[c].value.owner < state.playerCount)
  }

  /** Channel 7 + k is 1 exactly where a road of the seat k places after the
      observer lies. */
  lemma RoadOfSeat(format: Format, player: nat, state: State, x: nat, y: nat, k: nat)
    requires BoardInputs(format, player, state) && OwnersAreSeats(state) && k < state.playerCount
    ensures var seat := OffsetToPlayerId(player, k, state.playerCount);
      Written(BoardWrites(format, player, state), x, y, RoadChannelBase + k) ==
      if exists c :: c in state.pathCoords && state.dynamicPaths[c] == Some(seat) && format.cellOf(c) == (x, y)
      then 1 else 0
  {
    var P := state.playerCount;
    var seat := OffsetToPlayerId(player, k, P);
    RoadCell(format, player, state, x, y, k);
    forall c | c in state.pathCoords
      ensures RoadAt(format, player, state, c, x, y, k) <==>
        state.dynamicPaths[c] == Some(seat) && format.cellOf(c) == (x, y)
    {
      if state.dynamicPaths[c].Some? {
        OwnerAtOffset(player, state.dynamicPaths[c].value, k, P);
      }
    }
  }

  /** Channel 13 + P + k is 0 exactly where the seat k places after the
      observer has no building, and otherwise 2 for its city or 1 for its
      settlement there. */
  lemma BuildingOfSeat(format: Format, player: nat, state: State, x: nat, y: nat, k: nat)
    requires BoardInputs(format, player, state) && OwnersAreSeats(state) && k < state.playerCount
    ensures var P := state.playerCount;
      var seat := OffsetToPlayerId(player, k, P);
      var v := Written(BoardWrites(format, player, state), x, y, BuildingChannelBase(P) + k);
      && (v == 0 <==> !exists c :: && c in state.intersectionCoords && state.dynamicIntersections[c].Some?
                                   && state.dynamicIntersections[c].value.owner == seat && format.cellOf(c) == (x, y))
      && (v != 0 ==> exists c :: && c in state.intersectionCoords && state.dynamicIntersections[c].Some?
                                 && state.dynamicIntersections[c].value.owner == seat && format.cellOf(c) == (x, y)
                                 && v == if state.dynamicIntersections[c].value.isCity then 2 else 1)
  {
    var P := state.playerCount;
    var seat := OffsetToPlayerId(player, k, P);
    BuildingCell(format, player, state, x, y, k);
    forall c | c in state.intersectionCoords
      ensures BuildingAt(format, player, state, c, x, y, k) <==>
        && state.dynamicIntersections[c].Some?
        && state.dynamicIntersections[c].value.owner == seat && format.cellOf(c) == (x, y)
    {
      if state.dynamicIntersections[c].Some? {
        OwnerAtOffset(player, state.dynamicIntersections[c].value.owner, k, P);
      }
    }
  }
}
