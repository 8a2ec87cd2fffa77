/** The sequential logic of the Python-facing environment: the shape of the
    tuple handed to Python after each step, the multi-seat result aggregation,
    and the seat check of `MultiEnvironment::play`. Threads and channels are
    replaced by inputs: the observation or results a call would receive are
    parameters. */
module Environment {
  import opened Catan
  import opened Observation

  /** One element of the Python tuple, tagged by what it carries. */
  datatype Field =
    | IntField(n: int)
    | BoolField(b: bool)
    | BoardField(board: array3<int>)
    | FlatField(flat: array<int>)
    | HiddenField(hidden: array<int>)
    | ActionsField(actions: seq<bool>)
    | NoneField

  /** The tuple length for a format with or without the hidden vector. */
  function TupleLength(hiddenState: bool): nat {
    if hiddenState then 6 else 5
  }

  /** `to_py_tuple`. `None` is the terminal observation. With `hiddenState` a
      live observation must carry its hidden vector (`unwrap`), and a missing
      one is a panic. */
  function ToPyTuple(hiddenState: bool, observation: Option<(U8, Observation)>): (r: Result<seq<Field>, Panic>)
    ensures r.Err? <==> hiddenState && observation.Some? && observation.value.1.hidden.None?
    ensures r.Err? ==> r.error == UnwrapNone
    ensures r.Ok? ==> |r.value| == TupleLength(hiddenState)
    ensures r.Ok? ==> r.value[0] == IntField(if observation.Some? then observation.value.0 as int else 0)
    ensures r.Ok? ==> r.value[|r.value| - 1] == BoolField(observation.None?)
    ensures r.Ok? && observation.None? ==> forall i :: 0 < i < |r.value| - 1 ==> r.value[i] == NoneField
    ensures r.Ok? && observation.Some? ==>
      var o := observation.value.1;
      && r.value[1] == BoardField(o.board)
      && r.value[2] == FlatField(o.flat)
      && r.value[|r.value| - 2] == ActionsField(o.actions)
      && (hiddenState ==> r.value[3] == HiddenField(o.hidden.value))
  {
    match observation
    case Some((id, o)) =>
      if hiddenState then
        if o.hidden.None? then Err(UnwrapNone)
        else Ok([IntField(id as int), BoardField(o.board), FlatField(o.flat), HiddenField(o.hidden.value),
                 ActionsField(o.actions), BoolField(false)])
      else
        Ok([IntField(id as int), BoardField(o.board), FlatField(o.flat), ActionsField(o.actions), BoolField(false)])
    case None =>
      if hiddenState then Ok([IntField(0), NoneField, NoneField, NoneField, NoneField, BoolField(true)])
      else Ok([IntField(0), NoneField, NoneField, NoneField, BoolField(true)])
  }

  /** What a Python caller reads back out of a tuple: `None` for a tuple of
      the wrong shape, `Some(None)` for the terminal tuple. */
  function FromPyTuple(hiddenState: bool, fields: seq<Field>): Option<Option<(U8, Observation)>> {
    if |fields| != TupleLength(hiddenState) then None
    else if fields[|fields| - 1] == BoolField(true) then
      if fields[0] == IntField(0) && forall i :: 0 < i < |fields| - 1 ==> fields[i] == NoneField then Some(None)
      else None
    else if fields[|fields| - 1] == BoolField(false) then
      var last := |fields| - 2;
      if && fields[0].IntField? && 0 <= fields[0].n < 256
         && fields[1].BoardField? && fields[2].FlatField? && fields[last].ActionsField?
         && (hiddenState ==> fields[3].HiddenField?)
      then
        var hidden := if hiddenState then Some(fields[3].hidden) else None;
        Some(Some((fields[0].n as U8,
                   Observation(fields[last].actions, fields[1].board, fields[2].flat, hidden))))
      else None
    else None
  }

  /** The tuple loses nothing: reading it back gives the observation, except
      the hidden vector of a format that does not ship it. */
  lemma PyTupleRoundTrip(hiddenState: bool, observation: Option<(U8, Observation)>)
    requires observation.None? || (observation.value.1.hidden.Some? <==> hiddenState)
    ensures ToPyTuple(hiddenState, observation).Ok?
    ensures FromPyTuple(hiddenState, ToPyTuple(hiddenState, observation).value) == Some(observation)
  {
    var fields := ToPyTuple(hiddenState, observation).value;
    if observation.Some? {
      var o := observation.value.1;
      assert fields[|fields| - 1] == BoolField(false);
      var hidden := if hiddenState then Some(fields[3].hidden) else None;
      assert hidden == o.hidden;
    }
  }

  /** The seat the result loop reports as the winner: later seats overwrite
      earlier ones, so the highest-indexed seat whose flag is set, else 0. */
  function WinnerSeat(results: seq<(U8, bool)>): (w: nat)
    ensures |results| > 0 ==> w < |results|
    ensures (exists i :: 0 <= i < |results| && results[i].1) ==> results[w].1
    ensures (forall i :: 0 <= i < |results| ==> !results[i].1) ==> w == 0
    ensures forall j :: w < j < |results| ==> !results[j].1
  {
    if results == [] then 0
    else if results[|results| - 1].1 then |results| - 1
    else WinnerSeat(results[..|results| - 1])
  }

  /** `MultiEnvironment`. Each seat's action channel is modelled by the
      actions sent into it so far. */
  class MultiEnvironment {
    var players: nat
    var includeHidden: bool
    var sent: seq<seq<U16>>

    ghost predicate Valid()
      reads this
    {
      |sent| == players
    }

    constructor (players: nat, includeHidden: bool)
      ensures Valid()
      ensures this.players == players && this.includeHidden == includeHidden
      ensures forall p :: 0 <= p < players ==> sent[p] == []
    {
      this.players := players;
      this.includeHidden := includeHidden;
      sent := seq(players, _ => []);
    }

    /** `play`: send `action` on seat `player`'s channel, then shape the
        observation the game answers with. A seat out of range panics on the
        index, before anything is sent. */
    method Play(player: U8, action: U16, answer: Option<(U8, Observation)>)
      returns (r: Result<seq<Field>, Panic>)
      requires Valid()
      modifies this
      ensures Valid()
      ensures players == old(players) && includeHidden == old(includeHidden)
      ensures player as int >= players ==> r == Err(IndexOutOfBounds) && sent == old(sent)
      ensures player as int < players ==>
        && sent == old(sent)[player as int := old(sent)[player as int] + [action]]
        && r == ToPyTuple(includeHidden, answer)
    {
      if player as int >= players {
        return Err(IndexOutOfBounds);
      }
      sent := sent[player as int := sent[player as int] + [action]];
      r := ToPyTuple(includeHidden, answer);
    }

    /** `result`: `results[p]` is what seat `p`'s result channel delivers.
        The winner is truncated to `u8`, as the source's `as u8` does. */
    method Result(results: seq<(U8, bool)>) returns (scores: seq<U8>, winner: U8)
      requires Valid() && |results| == players
      ensures |scores| == players
      ensures forall p :: 0 <= p < players ==> scores[p] == results[p].0
      ensures winner as int == WinnerSeat(results) % 256
      ensures players <= 256 ==> winner as int == WinnerSeat(results)
    {
      var w: nat := 0;
      var vps := new U8[players](_ => 0);
      for p := 0 to players
        invariant w == WinnerSeat(results[..p])
        invariant forall q :: 0 <= q < p ==> vps[q] == results[q].0
      {
        assert results[..p + 1][..p] == results[..p];
        vps[p] := results[p].0;
        if results[p].1 {
          w := p;
        }
      }
      assert results[..players] == results;
      scores := vps[..];
      winner := (w % 256) as U8;
    }
  }
}
