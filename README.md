# pycatan observation encoder and environment shaping, in Dafny

This project models the part of the `pycatan` crate that turns a Catan game
state into what a Python agent sees, and proves what that encoding means.

- **Board tensor** (`generate_board`): a zero-filled `width × height × (13 + 2P)`
  array, where `P` is the seat count. Channels 0–4 hold production numbers, 5 the
  desert, 6 the thief, `7 + r` roads, `7 + P + k` harbors and `13 + P + r`
  buildings. The channel for a road or building is set by its owner's offset
  `r` from the observer. The model specifies the array by the ordered list of
  writes the three loops perform: a cell holds the last value written to it, or
  0. Lemmas then read each channel class back in terms of the game state.
- **Flat vector** (`generate_flat`, `fill_flat_visible`, `fill_flat_concealed`):
  length `29 + 8P`. Cells 0–26 hold the observer's full hand. Each opponent at
  offset `k` has an 8-cell summary at `19 + 8k`. Next come 6 bank cells, then 4
  phase flags. The layout is a decoding of each cell into a region (`RegionOf`),
  and the model proves this decoding is a bijection with the write offsets
  (`OffsetOf`). That means the regions tile the vector and never overlap.
- **Hidden vector** (`generate_hidden`): `P − 1` blocks of 27 cells. Each block
  starts with an opponent's 8-cell summary and the remaining 19 cells stay 0.
- **Observation assembly** (`new_array`, `new_python_array`) and the JSettlers
  resource numbering (`jsettlers_u`, `jsettlers_resource`).
- **Environment shaping** (`environment.rs`):
  - the 5- or 6-field tuple handed to Python (`to_py_tuple`);
  - the seat check of `MultiEnvironment::play`;
  - the score and winner aggregation of `MultiEnvironment::result`.

  The observation and results that a channel would deliver are parameters of
  the model.

Modules:
- `Catan` (catan.dfy): the engine's values as datatypes, plus the assumed
  relative-seat arithmetic, with lemmas that it maps seats to offsets and back.
- `ObservationBoard` (board.dfy): the board tensor.
- `ObservationFlat` (flat.dfy): the flat and hidden vectors.
- `Observation` (observation.dfy): the resource numbering and observation assembly.
- `Environment` (environment.dfy): the Python-facing environment.

Assumptions about code outside this model (the `catan` crate):
- `player_id_to_relative(obs, p, P)` is `(p − obs) mod P`.
- `offset_to_player_id(obs, k, P)` is `(obs + k) mod P`.
- `Resource::to_usize` numbers Brick, Lumber, Ore, Grain, Wool as 0–4.
  The proofs only use the fact that this numbering is a bijection onto 0–4.
- `DevelopmentCard::ALL` lists the five kinds in their `to_usize` order.
- `PlayerId::NONE` is distinct from every seat. It is modelled as `None`.
- Every road and building belongs to a seat below `P` (`ObservationBoard.OwnersAreSeats`).
  Only the lemmas that name the owning seat directly rely on this.

## Model

| member | source | states |
|---|---|---|
| Observation.JsettlersU | pycatan/src/py_catan_observation.rs:53-61 | every resource gets a JSettlers number below 5 |
| Observation.JsettlersResource | pycatan/src/py_catan_observation.rs:64-73 | fails, with the bad-resource panic, exactly for values 5 and up |
| Observation.JsettlersResourceOfU | pycatan/src/py_catan_observation.rs:53-73 | decoding the number of any resource gives that resource back |
| Observation.JsettlersUOfResource | pycatan/src/py_catan_observation.rs:53-73 | every value below 5 decodes, and re-encoding it gives the value back |
| ObservationBoard.HarborKind | pycatan/src/py_catan_observation.rs:117-121 | a harbor's channel offset is below 6, and it is 5 exactly for a generic harbor |
| ObservationBoard.WriteHex | pycatan/src/py_catan_observation.rs:90-100 | the body of the hex loop appends exactly that hex's writes to the board |
| ObservationBoard.WritePath | pycatan/src/py_catan_observation.rs:105-110 | the body of the path loop appends exactly that path's writes to the board |
| ObservationBoard.WriteIntersection | pycatan/src/py_catan_observation.rs:116-127 | the body of the intersection loop appends that intersection's harbor write, then its building write |
| ObservationBoard.FillHexes | pycatan/src/py_catan_observation.rs:89-101 | after the hex loop, the board holds the writes for all layout hexes, in layout order |
| ObservationBoard.FillPaths | pycatan/src/py_catan_observation.rs:103-111 | after the path loop, the board holds the writes for all layout paths, in layout order |
| ObservationBoard.FillIntersections | pycatan/src/py_catan_observation.rs:112-128 | after the intersection loop, the board holds the writes for all layout intersections, in layout order |
| ObservationBoard.GenerateBoard | pycatan/src/py_catan_observation.rs:84-130 | returns a fresh array of shape (width, height, 13+2P); every cell holds its last write from the hex, path and intersection loops, or 0 if nothing wrote it |
| ObservationBoard.WrittenIsSomeWrite | pycatan/src/py_catan_observation.rs:86 | on the zero-filled tensor, a cell that nothing writes stays 0, and a written cell holds the value of one of its writes |
| ObservationBoard.WrittenUniform | pycatan/src/py_catan_observation.rs:86 | if every write to a cell writes v, the cell is v when written and 0 otherwise |
| ObservationBoard.BoardWriteOrigin | pycatan/src/py_catan_observation.rs:86-128 | every write is inside width and height, and its channel is below 13+2P; channels below 7 come from hexes, 7..7+P-1 from paths, the rest from intersections |
| ObservationBoard.HexWriteFacts | pycatan/src/py_catan_observation.rs:89-101 | only land hexes write; channel 6 means the thief hex, channel 5 a desert, a channel below 5 a production hex of that resource with its number |
| ObservationBoard.ThiefCell | pycatan/src/py_catan_observation.rs:97-99 | channel 6 is 1 exactly at the cell of the thief's hex when that hex is a layout land hex, and 0 everywhere else |
| ObservationBoard.DesertCell | pycatan/src/py_catan_observation.rs:94 | channel 5 is 1 exactly at cells where a desert hex lies, and 0 elsewhere |
| ObservationBoard.ProductionCell | pycatan/src/py_catan_observation.rs:95 | channel i < 5 is 0 where no production hex of resource i lies, and otherwise holds the number of such a hex at that cell |
| ObservationBoard.RoadCell | pycatan/src/py_catan_observation.rs:104-110 | channel 7+r is 1 exactly where a road of the seat at offset r lies, and 0 elsewhere |
| ObservationBoard.IntersectionWriteFacts | pycatan/src/py_catan_observation.rs:115-127 | an intersection writes only channels 7+P..13+2P-1, at its own cell: a 1 for a harbor below 13+P, and a building level from 13+P on |
| ObservationBoard.HarborCell | pycatan/src/py_catan_observation.rs:117-121 | channel 7+P+k is 1 exactly where an intersection has harbor kind k (5 generic, otherwise the resource index), and 0 elsewhere |
| ObservationBoard.BuildingCell | pycatan/src/py_catan_observation.rs:123-126 | channel 13+P+r is 0 exactly where the seat at offset r has no building; otherwise it is 2 for a city and 1 for a settlement of that seat there |
| Catan.OwnerAtOffset | pycatan/src/py_catan_observation.rs:182-185 | a seat is at offset k from the observer (as the board's relative channels count) exactly when it is the seat k places after the observer (as the flat opponent loop picks it) |
| ObservationBoard.RoadOfSeat | pycatan/src/py_catan_observation.rs:104-110 | channel 7+k is 1 exactly where a road of the seat k places after the observer lies (the seat whose flat block is at offset k), and 0 elsewhere |
| ObservationBoard.BuildingOfSeat | pycatan/src/py_catan_observation.rs:123-126 | channel 13+P+k is 0 exactly where the seat k places after the observer has no building; otherwise it is 2 for that seat's city and 1 for its settlement |
| ObservationFlat.FillFlatVisible | pycatan/src/py_catan_observation.rs:133-153 | cells index..index+26 get the 27-field visible hand block, and no other cell changes |
| ObservationFlat.VisibleRoundTrip | pycatan/src/py_catan_observation.rs:133-152 | the visible block can be decoded back to the hand and both holder flags, so no two fields share a cell |
| ObservationFlat.FillFlatConcealed | pycatan/src/py_catan_observation.rs:156-165 | cells index..index+7 get the resource total, the three piece counts, knights, the development-card total and the two holder flags, and no other cell changes |
| ObservationFlat.SummaryRoundTrip | pycatan/src/py_catan_observation.rs:156-165 | the 8-cell concealed block can be decoded back to the summary it encodes |
| ObservationFlat.RegionOfCell | pycatan/src/py_catan_observation.rs:167-202 | every cell of the length 29+8P vector belongs to a valid region (own hand, opponent at offset k, bank, or phase), and its offset is that cell |
| ObservationFlat.CellOfRegion | pycatan/src/py_catan_observation.rs:167-202 | every valid region lies inside the vector and is the region of its own offset, so the regions are pairwise disjoint |
| ObservationFlat.PhaseFlags | pycatan/src/py_catan_observation.rs:196-202 | all four flags are 0 outside a turn; pre-roll and ready are 0/1 iffs; road building and year of plenty are nonzero iff active and 2 iff two picks are left |
| ObservationFlat.FillPhase | pycatan/src/py_catan_observation.rs:196-202 | during a turn, cells c..c+3 get the phase flags; otherwise nothing changes |
| ObservationFlat.FillOpponents | pycatan/src/py_catan_observation.rs:182-187 | after the opponent loop, every cell below 19+8P holds its final value (own block, then one concealed block per opponent offset) |
| ObservationFlat.GenerateFlat | pycatan/src/py_catan_observation.rs:167-204 | returns a fresh vector of length 29+8P whose every cell is the value of its region |
| ObservationFlat.HolderFlags | pycatan/src/py_catan_observation.rs:171-187 | for any seat's block, the longest-road and largest-army cells are 1 iff that seat holds the card, so both are 0 when no one does |
| ObservationFlat.OpponentBlock | pycatan/src/py_catan_observation.rs:182-187 | cells 19+8k..26+8k hold the summary of the seat k places after the observer |
| ObservationFlat.BankAndPhaseCells | pycatan/src/py_catan_observation.rs:189-202 | cells 19+8P..23+8P are the bank's resource counts, cell 24+8P is its development-card total, and 25+8P..28+8P are the phase flags |
| ObservationFlat.GenerateHidden | pycatan/src/py_catan_observation.rs:207-226 | returns a fresh vector of length (P-1)*27; the block for offset k starts at (k-1)*27 and holds that seat's concealed block in its first 8 cells and 0 in the other 19 |
| ObservationFlat.HiddenMirrorsFlat | pycatan/src/py_catan_observation.rs:207-226 | hidden cell (k-1)*27+f equals flat cell 19+8k+f for f < 8, and is 0 for 8 <= f < 27 |
| Observation.NewArray | pycatan/src/py_catan_observation.rs:228-249 | actions are the legal actions; the board and flat vector are the generated ones; hidden is present iff the format includes it, and is then the generated hidden vector |
| Observation.NewPythonArray | pycatan/src/py_catan_observation.rs:251-272 | as NewArray, except the board is a fresh cell-by-cell copy of the observer's entry in the board list |
| Environment.ToPyTuple | pycatan/src/environment.rs:21-63 | fails with an unwrap panic iff hidden is requested but missing; otherwise has 6 fields with hidden and 5 without; first field is the seat id (0 when terminal), last is the terminal flag; terminal middle fields are all None, live ones are board, flat, [hidden,] actions |
| Environment.PyTupleRoundTrip | pycatan/src/environment.rs:21-66 | reading back a tuple gives the observation it was made from (terminal or live) whenever the observation's hidden part matches the format |
| Environment.WinnerSeat | pycatan/src/environment.rs:191-199 | the highest-indexed seat whose flag is set; 0 when no flag is set; below the seat count when there is at least one seat |
| Environment.MultiEnvironment.constructor | pycatan/src/environment.rs:170-177 | stores the seat count and the hidden flag; every seat's action channel starts empty |
| Environment.MultiEnvironment.Play | pycatan/src/environment.rs:184-188 | a seat at or beyond the seat count gives an index panic and sends nothing; otherwise the action is appended to that seat's channel only, and the answer is shaped by ToPyTuple |
| Environment.MultiEnvironment.Result | pycatan/src/environment.rs:190-201 | returns one score per seat, equal to that seat's result, and the winner seat truncated to u8 (that is, the winner seat itself when there are at most 256 seats) |

## Left out

- Threads, mpsc channels, `Mutex`, `unpark`, and the endless game loops of both environments (environment.rs:88-97, 153-169). These are concurrency. Received observations and results are parameters instead.
- `SingleEnvironment::new` (environment.rs:83-105), which spawns the game thread with scripted opponents and one Python seat.
- `SingleEnvironment::start` and `MultiEnvironment::start` (environment.rs:107-109, 180-182). Each is one blocking receive followed by `to_py_tuple`, which is modelled.
- `SingleEnvironment::play` (environment.rs:111-115), which sends the action, unparks the game thread, then receives and calls `to_py_tuple`. It has one seat, so there is no index to check.
- `SingleEnvironment::result` (environment.rs:117-119), a bare receive that returns the seat's `(u8, bool)` result unchanged.
- `MultiEnvironment::new` (environment.rs:138-178), apart from the fields it stores: it creates the channels and spawns the game thread.
- The `expect` panics raised when a channel is closed are not modelled.
- PyO3 and numpy marshalling (`into_pyarray`, `into_py_any`, module registration). A Python tuple is modelled as a list of tagged fields.
- `axpy`, `mult`, `axpy_py` and `mult_py`: floating-point ndarray arithmetic unrelated to the encoder.
- The `catan` crate itself: game rules, `Randomy`, board setup, RNG and seat shuffling, `PythonState` board construction. `State`, `Phase`, `format.map` and the relative-seat helpers are inputs. The assumptions about them are listed above.
- ObservationBoard.GenerateBoard: it requires every layout coordinate to be present in the state's lookups and `format.map` to land inside width and height. The `unwrap` and ndarray index panics for a state that breaks these are not modelled.
- ObservationFlat.GenerateFlat: it requires the observer to be a seat and every hand to have the standard lengths. Index panics on malformed engine data are not modelled.
- ObservationFlat.GenerateFlat, ObservationFlat.GenerateHidden and ObservationBoard.GenerateBoard: cells are unbounded integers. The `i32` cell type and the `into()` conversions from the engine's counts are not modelled, because the counts the engine produces are far below the `i32` range.
- Catan: game phases not named by the encoder are merged. They become `Setup`, `PostRoll` or `CardPlayed`, which write the same cells as the phases they stand for.
- Catan.Total: it stands for the engine's `total()` on resource and development-card counts.
- Observation.NewPythonArray: the caller's board list (`PythonState::boards`) is an input. How the engine keeps it up to date is not modelled.
- Observation.NewPythonArray: it requires the observer to index the board list. The index panic of `boards[player.to_usize()]` for an observer beyond the list is not modelled.
- ObservationFlat.GenerateHidden: each 27-cell block holds only the 8-cell summary that `fill_flat_concealed` writes, the same cells as the flat vector's opponent block; the other 19 cells stay 0 (ObservationFlat.HiddenCell, ObservationFlat.HiddenMirrorsFlat).
