/** Observation assembly (`new_array`, `new_python_array`) and the JSettlers
    resource numbering (`jsettlers_u`, `jsettlers_resource`). */
module Observation {
  import opened Catan
  import opened ObservationBoard
  import opened ObservationFlat

  /** JSettlers' resource numbering. */
  function JsettlersU(resource: Resource): (v: nat)
    ensures v < 5
  {
    match resource
    case Brick => 0
    case Ore => 1
    case Wool => 2
    case Grain => 3
    case Lumber => 4
  }

  /** The inverse numbering; any value from 5 on panics. */
  function JsettlersResource(value: nat): (r: Result<Resource, Panic>)
    ensures r.Err? <==> value >= 5
    ensures r.Err? ==> r.error == BadResourceValue
  {
    match value
    case 0 => Ok(Brick)
    case 1 => Ok(Ore)
    case 2 => Ok(Wool)
    case 3 => Ok(Grain)
    case 4 => Ok(Lumber)
    case _ => Err(BadResourceValue)
  }

  lemma JsettlersResourceOfU(r: Resource)
    ensures JsettlersResource(JsettlersU(r)) == Ok(r)
  {
  }

  lemma JsettlersUOfResource(v: nat)
    requires v < 5
    ensures JsettlersResource(v).Ok? && JsettlersU(JsettlersResource(v).value) == v
  {
  }

  /** `PyCatanObservation`. `hidden` is present only when the format asks for it. */
  datatype Observation = Observation(
    actions: seq<bool>,
    board: array3<int>,
    flat: array<int>,
    hidden: Option<array<int>>)

  /** The inputs `new_array` needs: those of the board and of the flat vector. */
  predicate ObservationInputs(format: Format, player: nat, state: State) {
    BoardInputs(format, player, state)
  }

  method NewArray(format: Format, player: nat, state: State, phase: Phase, legalActions: seq<bool>)
    returns (obs: Observation)
    requires ObservationInputs(format, player, state)
    ensures obs.actions == legalActions
    ensures fresh(obs.board) && fresh(obs.flat)
    ensures obs.board.Length0 == format.width && obs.board.Length1 == format.height
    ensures obs.board.Length2 == ChannelCount(state.playerCount)
    ensures Holds(obs.board, BoardWrites(format, player, state))
    ensures FlatHolds(obs.flat, player, state, phase)
    ensures obs.hidden.Some? <==> format.includeHidden
    ensures obs.hidden.Some? ==> fresh(obs.hidden.value) && HiddenHolds(obs.hidden.value, player, state)
  {
    var board := GenerateBoard(format, player, state);
    var flat := GenerateFlat(player, state, phase);
    var hidden: Option<array<int>> := None;
    if format.includeHidden {
      var h := GenerateHidden(player, state, phase);
      hidden := Some(h);
    }
    obs := Observation(legalActions, board, flat, hidden);
  }

  /** `new_python_array`: as `new_array`, but the board is a copy of the
      observer's entry in a board list the caller keeps up to date. */
  method NewPythonArray(format: Format, player: nat, boards: seq<array3<int>>, state: State, phase: Phase,
                        legalActions: seq<bool>)
    returns (obs: Observation)
    requires FlatInputs(player, state) && player < |boards|
    ensures obs.actions == legalActions
    ensures fresh(obs.board) && fresh(obs.flat)
    ensures var src := boards[player];
      && obs.board.Length0 == src.Length0 && obs.board.Length1 == src.Length1 && obs.board.Length2 == src.Length2
      && forall x, y, ch :: 0 <= x < src.Length0 && 0 <= y < src.Length1 && 0 <= ch < src.Length2 ==>
           obs.board[x, y, ch] == src[x, y, ch]
    ensures FlatHolds(obs.flat, player, state, phase)
    ensures obs.hidden.Some? <==> format.includeHidden
    ensures obs.hidden.Some? ==> fresh(obs.hidden.value) && HiddenHolds(obs.hidden.value, player, state)
  {
    var src := boards[player];
    var board := new int[src.Length0, src.Length1, src.Length2]((x, y, ch) reads src =>
      if 0 <= x < src.Length0 && 0 <= y < src.Length1 && 0 <= ch < src.Length2 then src[x, y, ch] else 0);
    var flat := GenerateFlat(player, state, phase);
    var hidden: Option<array<int>> := None;
    if format.includeHidden {
      var h := GenerateHidden(player, state, phase);
      hidden := Some(h);
    }
    obs := Observation(legalActions, board, flat, hidden);
  }
}
