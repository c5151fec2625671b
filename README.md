# VeraGrid core, modelled and verified in Dafny

VeraGrid is a power-systems analysis engine: a grid is a `MultiCircuit` of buses, switches,
lines and injections, and the engine runs power flows, contingency screening, reliability
studies and dynamic (DAE) simulation on it. This project models the deterministic bookkeeping
at the heart of several of its components, and proves what that bookkeeping promises:

- **DAE index bookkeeping** (`DaeIndex`, `Jacobian`, `DiffBlocks`): the slots the
  `DiffBlockSolver` gives to state, algebraic, parameter, lag and differential variables; the
  dense vectors built from `{var: value}` maps; the CSC pattern of the Jacobian; the in-place
  update of lag-0 slots; block packing; and `block2diffblock`, which turns state equations
  into algebraic ones, sharing lists with the source block as `from_block` does.
- **Reliability** (`Reliability`): the on/off availability schedule of `compose_states`, the
  state matrix, the rows where two state matrices differ, the failure time blocks and the
  energy not supplied.
- **Grid reduction and contingencies** (`WardReduction`, `Contingency`): the external,
  boundary and internal bus sets of a Ward reduction, the per-column magnitude maxima, and the
  PTDF/LODF screening scan with its overload list.
- **Dynamic models** (`DynamicModel`): the `BlockDiagram` node map and connection list, their
  dictionary form and its parsing, and the template/custom-model selection of a
  `DynamicModelHost`.
- **Substation topology** (`Grid`, `Layouts`, `SingleBar`, `Splitter`, `DoubleBar`,
  `BreakerAndAHalf`, `Ring`, `VoltageLevels`, `Rewiring`, `ConnectivityGrid`, `Substation`):
  the voltage-level builders, described as bay patterns that a generic engine (`Layouts`)
  expands into exact bus, switch and line lists; the conversion of a bus into a voltage level
  or a connectivity grid, with its device rewiring; and `create_substation`.
- **Procedural grids** (`Procedural`): the BFS that counts device-type transitions in
  `ProceduralGrid.train`.

Code that updates state in place is modelled as classes and methods over arrays, sequences
and maps, each method proved against a specification function; pure code is modelled as
functions. Python exceptions are values of a `Result` type (`Common.PyError`), so the error
paths are part of every contract. Floating-point numbers are modelled as `real`.

## Model

| member | source | states |
|---|---|---|
| DaeIndex.Slots | src/VeraGridEngine/Utils/MultiLinear/diff_blocksolver.py:142-151 | the running-counter dictionary has exactly the listed uids as keys, each with a slot in [start, start + len) |
| DaeIndex.SlotsLastIndex | src/VeraGridEngine/Utils/MultiLinear/diff_blocksolver.py:142-151 | a uid listed more than once ends up with the slot of its last occurrence |
| DaeIndex.SlotsInjective | src/VeraGridEngine/Utils/MultiLinear/diff_blocksolver.py:142-151 | distinct uids get distinct slots |
| DaeIndex.SlotsAppend | src/VeraGridEngine/Utils/MultiLinear/diff_blocksolver.py:142-151 | continuing the counter from the state loop into the algebraic loop is one pass over the concatenated list |
| DaeIndex.AssignSlots | src/VeraGridEngine/Utils/MultiLinear/diff_blocksolver.py:143-146 | the counting loop adds Slots(s, start) to the dictionary and leaves the counter at start + len(s) |
| DaeIndex.AssignFrom0 | src/VeraGridEngine/Utils/MultiLinear/diff_blocksolver.py:159-163 | a dictionary filled by the counting loop from 0 is Slots(s, 0) |
| DaeIndex.NumberVariables | src/VeraGridEngine/Utils/MultiLinear/diff_blocksolver.py:240-248 | uid2idx_vars holds states from 0, algebraic variables next and the sorted lag variables after all of them (counter started at n_state + n_alg, see Findings) |
| DaeIndex.SortLags | src/VeraGridEngine/Utils/MultiLinear/diff_blocksolver.py:242 | the lag variables come out ordered by (base uid, lag), as a permutation of the input set |
| DaeIndex.VarSlotsDisjoint | src/VeraGridEngine/Utils/MultiLinear/diff_blocksolver.py:240-248 | a lag slot is never below n_state + n_alg and a state or algebraic slot always is |
| DaeIndex.AsWrittenLagSlotCollides | src/VeraGridEngine/Utils/MultiLinear/diff_blocksolver.py:240 | with states [7, 7] the counter as written starts the lags at 1, the slot state 7 already holds; the corrected numbering gives the lag slot 2 |
| DaeIndex.ScatterOk | src/VeraGridEngine/Utils/MultiLinear/diff_blocksolver.py:456-458 | filling a vector from a {var: value} mapping succeeds exactly when every key has a slot inside the vector |
| DaeIndex.ScatterValues | src/VeraGridEngine/Utils/MultiLinear/diff_blocksolver.py:456-458 | on success slot j holds the value of the last key mapped to j, and its old entry when no key maps to j |
| DaeIndex.ScatterMissing | src/VeraGridEngine/Utils/MultiLinear/diff_blocksolver.py:456-458 | when all slots lie inside the vector, a failure names a key that has no slot |
| DaeIndex.ScatterInto | src/VeraGridEngine/Utils/MultiLinear/diff_blocksolver.py:456-458 | the loop on an array ends in the state the scatter specification gives, or with the error it raises |
| DaeIndex.GuessShifts | src/VeraGridEngine/Utils/MultiLinear/diff_blocksolver.py:552-561 | on success every entry of the guess is x0 plus h·dx0 of every first-order differential variable based there |
| DaeIndex.ShiftAtUntouched | src/VeraGridEngine/Utils/MultiLinear/diff_blocksolver.py:552-561 | slots that no first-order differential variable is based at keep their x0 value |
| DaeIndex.DiffSlotsInRange | src/VeraGridEngine/Utils/MultiLinear/diff_blocksolver.py:470-473 | every differential uid has a slot below n_diff, so a differential key never overflows the vector |
| DaeIndex.DiffBlockSolver.constructor | src/VeraGridEngine/Utils/MultiLinear/diff_blocksolver.py:119-167 | dt is appended last and gets parameter index n_params - 1; diff, lag and time dictionaries are counting dictionaries from 0; lag variables are sorted and unique; uid2idx_vars is the corrected VarSlots, with lag slots after every state and algebraic slot (lag slots corrected, see Findings) |
| DaeIndex.DiffBlockSolver.SortVars | src/VeraGridEngine/Utils/MultiLinear/diff_blocksolver.py:448-460 | the n_state + n_alg vector holds each mapped variable at its slot; an unknown key raises KeyError |
| DaeIndex.DiffBlockSolver.BuildInitDiffvarsVector | src/VeraGridEngine/Utils/MultiLinear/diff_blocksolver.py:462-477 | ValueError exactly when some key is not a differential variable; otherwise each value at its differential slot and 0 elsewhere |
| DaeIndex.DiffBlockSolver.BuildInitialGuess | src/VeraGridEngine/Utils/MultiLinear/diff_blocksolver.py:552-561 | returns a fresh array equal to the Guess specification (x0 shifted by h·dx0 at base slots) and leaves x0 unmodified |
| DaeIndex.DiffBlockSolver.UpdateZeroLags | src/VeraGridEngine/Utils/MultiLinear/diff_blocksolver.py:786-791 | every lag-0 slot takes its base variable's current value; every other lag slot keeps its value |
| Jacobian.HasRepeatedVar | src/VeraGridEngine/Utils/MultiLinear/diff_blocksolver.py:369-375 | the duplicate check reports a repetition exactly when some variable is listed twice |
| Jacobian.CollectTriplets | src/VeraGridEngine/Utils/MultiLinear/diff_blocksolver.py:381-415 | one triplet per derivative that is not the constant 0, and every such derivative has one, in (row, col) order |
| Jacobian.SortTriplets | src/VeraGridEngine/Utils/MultiLinear/diff_blocksolver.py:418 | the triplets re-ordered by (col, row), as a permutation of the input |
| Jacobian.CountBelowSorted | src/VeraGridEngine/Utils/MultiLinear/diff_blocksolver.py:426-429 | in a column list sorted by column, the entries of the columns before c are exactly the first indptr[c] |
| Jacobian.BuildIndptr | src/VeraGridEngine/Utils/MultiLinear/diff_blocksolver.py:426-429 | indptr has n + 1 entries and indptr[c] is the number of triplets in columns before c |
| Jacobian.SortedListsEntries | src/VeraGridEngine/Utils/MultiLinear/diff_blocksolver.py:418-424 | the three parallel arrays of the sorted triplets list every structural non-zero of the Jacobian, strictly in (col, row) order |
| Jacobian.GetJacobian | src/VeraGridEngine/Utils/MultiLinear/diff_blocksolver.py:348-429 | ValueError exactly when a variable is listed twice; otherwise the CSC pattern: all non-zeros in (col, row) order with indptr counting columns |
| Jacobian.ColumnSlice | src/VeraGridEngine/Utils/MultiLinear/diff_blocksolver.py:423-429 | the entries of column c are exactly positions indptr[c] .. indptr[c+1] of the pattern |
| Jacobian.IndptrMonotone | src/VeraGridEngine/Utils/MultiLinear/diff_blocksolver.py:426-429 | indptr starts at 0, never decreases and ends at nnz |
| Jacobian.BesideHas | src/VeraGridEngine/Utils/MultiLinear/diff_blocksolver.py:46 | in a horizontal stack of two blocks, the left block keeps its columns and the right block is shifted by the left width |
| Jacobian.AboveHas | src/VeraGridEngine/Utils/MultiLinear/diff_blocksolver.py:47 | in a vertical stack of two blocks, the lower block is shifted by the upper height |
| Jacobian.HStackHas | src/VeraGridEngine/Utils/MultiLinear/diff_blocksolver.py:46 | entry (i, j) of block k lands at column (widths of the blocks before k) + j |
| Jacobian.VStackHas | src/VeraGridEngine/Utils/MultiLinear/diff_blocksolver.py:47 | entry (i, j) of block k lands at row (heights of the blocks before k) + i |
| Jacobian.GridEntry | src/VeraGridEngine/Utils/MultiLinear/diff_blocksolver.py:44-47 | entry (a, b) of grid block (i, j) lands at the row offset of row i plus a and the column offset of block j plus b |
| Jacobian.PackableRow | src/VeraGridEngine/Utils/MultiLinear/diff_blocksolver.py:44-47 | in a grid that packs, every grid row stacks to the width of row 0 |
| Jacobian.StackRow | src/VeraGridEngine/Utils/MultiLinear/diff_blocksolver.py:45-46 | one row of blocks: KeyError for a missing block (i, j), ValueError when their heights differ, else the hstack |
| Jacobian.PackBlocks | src/VeraGridEngine/Utils/MultiLinear/diff_blocksolver.py:36-47 | the packed matrix exactly when every block is present and the shapes line up; KeyError or ValueError otherwise, ValueError only when all are present |
| Jacobian.PackedEntry | src/VeraGridEngine/Utils/MultiLinear/diff_blocksolver.py:36-47 | every entry of every block appears in the packed matrix at its offset position |
| DiffBlocks.DtVar | src/VeraGridEngine/Utils/MultiLinear/to_diffblock.py:26 | the differential variable of x is named "dt_" + x.name and based on x |
| DiffBlocks.Block.FromBlock | src/VeraGridEngine/Utils/MultiLinear/diff_blocksolver.py:58-69 | from_block shares the algebraic, children and state lists of the source block and starts with empty diff, lag, reformulated and differential lists |
| DiffBlocks.Rewritten | src/VeraGridEngine/Utils/MultiLinear/to_diffblock.py:24-28 | the i-th rewritten equation is state equation i minus the dt variable of state variable i |
| DiffBlocks.Convert | src/VeraGridEngine/Utils/MultiLinear/to_diffblock.py:19-35 | the converted tree: IndexError when a block has fewer state variables than state equations, otherwise a block with as many children as before |
| DiffBlocks.ConvertedChildren | src/VeraGridEngine/Utils/MultiLinear/to_diffblock.py:32-33 | each child of a converted block is the conversion of the original child |
| DiffBlocks.ConvertParts | src/VeraGridEngine/Utils/MultiLinear/to_diffblock.py:19-35 | a block whose own rewrite succeeds and whose children convert converts to its own rewritten part with the converted children |
| DiffBlocks.ConvertOkIff | src/VeraGridEngine/Utils/MultiLinear/to_diffblock.py:24-25 | the rewrite succeeds exactly when no block in the tree lacks a state variable for a state equation |
| DiffBlocks.ConvertShape | src/VeraGridEngine/Utils/MultiLinear/to_diffblock.py:20-30 | per state equation i one algebraic equation eq - dt_x, one algebraic variable x and one differential variable dt_x are appended after the old ones; state lists end empty; lag, reformulated and differential lists are empty |
| DiffBlocks.ConvertCounts | src/VeraGridEngine/Utils/MultiLinear/to_diffblock.py:24-33 | over the whole tree the algebraic equations afterwards number the algebraic plus the state equations before, and no state equation remains |
| DiffBlocks.ConvertCountsAll | src/VeraGridEngine/Utils/MultiLinear/to_diffblock.py:32-33 | the same count over a list of children |
| DiffBlocks.ReconvertDropsDiffVars | src/VeraGridEngine/Utils/MultiLinear/diff_blocksolver.py:63 | converting a converted tree succeeds, keeps its algebraic equations and loses its differential variables |
| DiffBlocks.ConvertedCovers | src/VeraGridEngine/Utils/MultiLinear/to_diffblock.py:21-22 | a converted tree has no state equation left without a state variable |
| DiffBlocks.Block2DiffBlock | src/VeraGridEngine/Utils/MultiLinear/to_diffblock.py:19-35 | on success the new DiffBlock holds the converted tree and shares its algebraic lists and children list with the input block; IndexError otherwise |
| DiffBlocks.NewDiffBlock | src/VeraGridEngine/Utils/MultiLinear/to_diffblock.py:20-30 | the copy with emptied state lists and the rewritten state equations appended to the shared algebraic lists; the children list untouched |
| DiffBlocks.RewriteStateEqs | src/VeraGridEngine/Utils/MultiLinear/to_diffblock.py:24-30 | appends the rewritten equations, the state variables and their dt variables in order; with too few state variables it appends the ones before the IndexError |
| DiffBlocks.ConvertChildren | src/VeraGridEngine/Utils/MultiLinear/to_diffblock.py:32-33 | replaces every child by its conversion in place, and fails exactly when some child does not convert |
| DynamicModel.FieldsSpec | src/VeraGridEngine/Devices/Dynamic/dynamic_model_host.py:147-154 | the field lookups of a node succeed exactly when every key is present, and then yield the values in key order |
| DynamicModel.PyIntOfNatStr | src/VeraGridEngine/Devices/Dynamic/dynamic_model_host.py:146 | int(str(n)) is n, so a uid written as a dictionary key is read back unchanged |
| DynamicModel.UpsertLookup | src/VeraGridEngine/Devices/Dynamic/dynamic_model_host.py:94 | after d[k] = v, k holds v and every other key keeps its value |
| DynamicModel.UpsertDistinct | src/VeraGridEngine/Devices/Dynamic/dynamic_model_host.py:94 | d[k] = v keeps the keys distinct |
| DynamicModel.NodeDataDictWith | src/VeraGridEngine/Devices/Dynamic/dynamic_model_host.py:126-128 | the node data dict has one entry per node, in the node map's order |
| DynamicModel.ConsDict | src/VeraGridEngine/Devices/Dynamic/dynamic_model_host.py:130-132 | the connection dict keys the connections 0..n-1 in list order |
| DynamicModel.ParseSubDiagram | src/VeraGridEngine/Devices/Dynamic/dynamic_model_host.py:140-144 | no sub-diagram when the key is absent or holds None; otherwise its nodes are parsed, then its connections |
| DynamicModel.ParseNodeObj | src/VeraGridEngine/Devices/Dynamic/dynamic_model_host.py:141-156 | a non-dict entry raises TypeError; a missing field raises KeyError for the first missing key |
| DynamicModel.ParseEntry | src/VeraGridEngine/Devices/Dynamic/dynamic_model_host.py:146 | the node is built before int(uid) is taken, as Python evaluates the right-hand side of the assignment first |
| DynamicModel.ParseNodesVal | src/VeraGridEngine/Devices/Dynamic/dynamic_model_host.py:134-156 | parse_nodes on a non-dict raises AttributeError |
| DynamicModel.NodeKeysDistinct | src/VeraGridEngine/Devices/Dynamic/dynamic_model_host.py:29-38 | the keys a node dict is written with are distinct, differ from "sub_diagram", and do not include 'state_outs' |
| DynamicModel.NodeDictGet | src/VeraGridEngine/Devices/Dynamic/dynamic_model_host.py:28-44 | field p of a node dict holds the node's field p |
| DynamicModel.NodeSubFind | src/VeraGridEngine/Devices/Dynamic/dynamic_model_host.py:39-43 | a node dict has a "sub_diagram" entry, after the eight fields, exactly when the node has a sub-diagram |
| DynamicModel.SubDictFind | src/VeraGridEngine/Devices/Dynamic/dynamic_model_host.py:40-43 | the sub-diagram entry holds the dicts of the nested nodes and connections |
| DynamicModel.ConnectionsRoundTrip | src/VeraGridEngine/Devices/Dynamic/dynamic_model_host.py:158-170 | parse_branches(get_con_data_dict()) rebuilds the same connections in the same order |
| DynamicModel.SubRoundTrip | src/VeraGridEngine/Devices/Dynamic/dynamic_model_host.py:140-144 | the sub-diagram entry of a node dict parses back to the node's sub-diagram |
| DynamicModel.NodeRoundTrip | src/VeraGridEngine/Devices/Dynamic/dynamic_model_host.py:146-156 | parsing the dict of one node (with the key parse_nodes reads) gives that node back |
| DynamicModel.NodeEntryRoundTrip | src/VeraGridEngine/Devices/Dynamic/dynamic_model_host.py:139-156 | entry i of the node data dict parses to node i under its uid |
| DynamicModel.StoreUpToAll | src/VeraGridEngine/Devices/Dynamic/dynamic_model_host.py:138-156 | when every entry parses, storing the results in order rebuilds the node map |
| DynamicModel.NodesRoundTrip | src/VeraGridEngine/Devices/Dynamic/dynamic_model_host.py:134-156 | parse_nodes(get_node_data_dict()) with the key parse_nodes reads rebuilds the same node map, nested diagrams included |
| DynamicModel.AsWrittenNodeFails | src/VeraGridEngine/Devices/Dynamic/dynamic_model_host.py:35 | the dict get_node_dict writes lacks 'state_outs', so parsing it raises KeyError('state_outs') |
| DynamicModel.AsWrittenSubDiagram | src/VeraGridEngine/Devices/Dynamic/dynamic_model_host.py:141-144 | a sub-diagram written as written parses to the same result or raises the same KeyError |
| DynamicModel.AsWrittenNodesFail | src/VeraGridEngine/Devices/Dynamic/dynamic_model_host.py:152 | parsing the output of get_node_data_dict as written succeeds only for an empty node map and raises KeyError('state_outs') otherwise |
| DynamicModel.StoreUpToFirstErr | src/VeraGridEngine/Devices/Dynamic/dynamic_model_host.py:139-156 | once an entry raises, the loop stops with that error |
| DynamicModel.StoreUpToStops | src/VeraGridEngine/Devices/Dynamic/dynamic_model_host.py:139-156 | entries after the first one that raised are not parsed |
| DynamicModel.BranchesUpToStops | src/VeraGridEngine/Devices/Dynamic/dynamic_model_host.py:163-170 | connections after the first one that raised are not parsed |
| DynamicModel.DiagramRoundTrip | src/VeraGridEngine/Devices/Dynamic/dynamic_model_host.py:126-170 | a diagram's node dict and connection dict both parse back to the diagram |
| DynamicModel.BlockDiagram.constructor | src/VeraGridEngine/Devices/Dynamic/dynamic_model_host.py:76-82 | a diagram starts with no nodes and no connections |
| DynamicModel.BlockDiagram.AddNode | src/VeraGridEngine/Devices/Dynamic/dynamic_model_host.py:84-104 | stores the node under its device uid, replacing any node with that uid in place; connections unchanged |
| DynamicModel.BlockDiagram.AddBranch | src/VeraGridEngine/Devices/Dynamic/dynamic_model_host.py:106-125 | appends the connection, so connections keep insertion order; nodes unchanged |
| DynamicModel.BlockDiagram.NodeDataDict | src/VeraGridEngine/Devices/Dynamic/dynamic_model_host.py:126-128 | one entry per node, keyed by the node's uid, in insertion order |
| DynamicModel.BlockDiagram.ConDataDict | src/VeraGridEngine/Devices/Dynamic/dynamic_model_host.py:130-132 | entry i is (i, the dict of connection i) |
| DynamicModel.BlockDiagram.ParseNodes | src/VeraGridEngine/Devices/Dynamic/dynamic_model_host.py:134-156 | AttributeError for a non-dict; otherwise the node map is replaced by the entries parsed before the first error, and it is the whole parse result exactly when no entry raises; the diagram is left well keyed (distinct uids at every depth) whether or not an entry raises |
| DynamicModel.BlockDiagram.ParseBranches | src/VeraGridEngine/Devices/Dynamic/dynamic_model_host.py:158-170 | AttributeError for a non-dict; otherwise the connection list is replaced by the entries parsed before the first error; a well-keyed diagram stays well keyed |
| DynamicModel.ParseNodeEntry | src/VeraGridEngine/Devices/Dynamic/dynamic_model_host.py:140-156 | one loop pass extends the stored prefix by the entry's result |
| DynamicModel.DynamicModelHost.constructor | src/VeraGridEngine/Devices/Dynamic/dynamic_model_host.py:178-189 | a new host has no template, an empty custom model and an empty diagram |
| DynamicModel.DynamicModelHost.Model | src/VeraGridEngine/Devices/Dynamic/dynamic_model_host.py:211-220 | the model is the template when one is set, else the custom model |
| DynamicModel.DynamicModelHost.SetTemplate | src/VeraGridEngine/Devices/Dynamic/dynamic_model_host.py:195-205 | a template's block or a block becomes the template; anything else raises ValueError and changes nothing; the custom model is untouched |
| DynamicModel.DynamicModelHost.SetModel | src/VeraGridEngine/Devices/Dynamic/dynamic_model_host.py:222-232 | a template goes to the template, a block replaces only the custom model (so a host with a template keeps its model), anything else raises ValueError |
| DynamicModel.DynamicModelHost.Equals | src/VeraGridEngine/Devices/Dynamic/dynamic_model_host.py:284-298 | equal when both lack a template and the custom models are equal, or both have templates with equal uid; a non-host is never equal |
| DynamicModel.DynamicModelHost.EqualsModelUid | src/VeraGridEngine/Devices/Dynamic/dynamic_model_host.py:284-298 | equal hosts expose models with the same uid |
| DynamicModel.DynamicModelHost.EqualsSymmetric | src/VeraGridEngine/Devices/Dynamic/dynamic_model_host.py:284-298 | host equality is reflexive and symmetric |
| DynamicModel.Get | src/VeraGridEngine/Devices/Dynamic/dynamic_model_host.py:147-154 | d[key] raises KeyError(key) exactly when the key is absent |
| DynamicModel.PyIntOf | src/VeraGridEngine/Devices/Dynamic/dynamic_model_host.py:146 | int(o): integers unchanged, floats truncated toward zero, None, lists and dicts a TypeError |
| DynamicModel.Upsert | src/VeraGridEngine/Devices/Dynamic/dynamic_model_host.py:94 | d[k] = v appends a new key and keeps the key order when the key is present |
| DynamicModel.ParseConnection | src/VeraGridEngine/Devices/Dynamic/dynamic_model_host.py:163-170 | a non-dict entry raises TypeError; a dict parses exactly when every connection field is present |
| DynamicModel.ParseBranchesVal | src/VeraGridEngine/Devices/Dynamic/dynamic_model_host.py:158-170 | AttributeError for a non-dict; on success one connection per entry |
| DynamicModel.AsWrittenLacksOuts | src/VeraGridEngine/Devices/Dynamic/dynamic_model_host.py:35 | the node dict as written has no 'state_outs' key |
| DynamicModel.PyIntOfSigned | src/VeraGridEngine/Devices/Dynamic/dynamic_model_host.py:146 | int(str(n)), int("+" + str(n)) and int("-" + str(n)) are n, n and -n |
| DynamicModel.PyIntOfDigits | src/VeraGridEngine/Devices/Dynamic/dynamic_model_host.py:146 | an optionally signed run of decimal digits reads as its decimal value, negated after a minus sign |
| DynamicModel.PyIntOfPadded | src/VeraGridEngine/Devices/Dynamic/dynamic_model_host.py:146 | the whitespace int() skips (tab to carriage return, the space, and the non-ASCII spaces) before and after the text does not change what it reads |
| DynamicModel.PyIntOfUnderscore | src/VeraGridEngine/Devices/Dynamic/dynamic_model_host.py:146 | a single underscore between two runs of digits is dropped: int("1_000") is int("1000"), the value of the digits |
| DynamicModel.PyIntOfBadUnderscore | src/VeraGridEngine/Devices/Dynamic/dynamic_model_host.py:146 | a doubled, leading or trailing underscore is a ValueError |
| DynamicModel.PyIntOfUngrouped | src/VeraGridEngine/Devices/Dynamic/dynamic_model_host.py:146 | unsigned text without surrounding whitespace that is not digits with single underscores between them is a ValueError |
| DynamicModel.PyIntOfNoDigits | src/VeraGridEngine/Devices/Dynamic/dynamic_model_host.py:146 | a string without any digit, the empty string included, is a ValueError |
| DynamicModel.BlockDiagram.StoreEntries | src/VeraGridEngine/Devices/Dynamic/dynamic_model_host.py:139-156 | the loop of parse_nodes: the node map holds the entries stored in order, d[int(uid)] = node, up to the first entry that raises, and that exception |
| DynamicModel.UpsertWellKeyed | src/VeraGridEngine/Devices/Dynamic/dynamic_model_host.py:94 | d[k] = v keeps a diagram well keyed when the stored node's own sub-diagram is |
| DynamicModel.StoreUpToWellKeyed | src/VeraGridEngine/Devices/Dynamic/dynamic_model_host.py:139-156 | storing parse results in order, stopping at the first error, yields distinct uids at every depth |
| DynamicModel.NodesValWellKeyed | src/VeraGridEngine/Devices/Dynamic/dynamic_model_host.py:134-156 | every diagram parse_nodes returns, its nested sub-diagrams included, has distinct uids, so DiagramRoundTrip applies to it |
| DynamicModel.ParsedNodesWellKeyed | src/VeraGridEngine/Devices/Dynamic/dynamic_model_host.py:134-156 | what the parse_nodes loop leaves behind, complete or cut short by an exception, is well keyed |
| DynamicModel.PyIntOfSeparator | src/VeraGridEngine/Devices/Dynamic/dynamic_model_host.py:146 | the ASCII separators 0x1C to 0x1F are not skipped: digits with one of them before or after are a ValueError |
| Reliability.Fill | src/VeraGridEngine/Simulations/Reliability/reliability.py:70-84 | a slice assignment of v over n hours gives n entries all equal to v |
| Reliability.Run | src/VeraGridEngine/Simulations/Reliability/reliability.py:64-89 | the schedule from hour a covers exactly the hours up to the horizon and consumes draws from the cursor onward |
| Reliability.Compose | src/VeraGridEngine/Simulations/Reliability/reliability.py:43-89 | a schedule, when the draws suffice, has length horizon and uses no more draws than supplied |
| Reliability.RunFailures | src/VeraGridEngine/Simulations/Reliability/reliability.py:77-85 | the failure count grows by one per recovery draw, including a final recovery cut at the horizon |
| Reliability.RunAlternates | src/VeraGridEngine/Simulations/Reliability/reliability.py:64-89 | hour t is on exactly when an even number of drawn blocks has ended by t, so on and off blocks alternate in draw order |
| Reliability.CrossingsAbove | src/VeraGridEngine/Simulations/Reliability/reliability.py:64-68 | no block has ended before the current hour |
| Reliability.ComposeSchedule | src/VeraGridEngine/Simulations/Reliability/reliability.py:52-89 | with mttf and mttr non-zero: on/off blocks alternate from an on block, and the failures equal the number of recovery draws |
| Reliability.FillRange | src/VeraGridEngine/Simulations/Reliability/reliability.py:70-84 | active[lo:hi] = v sets exactly that slice and leaves the rest unchanged |
| Reliability.PrependEmpty | src/VeraGridEngine/Simulations/Reliability/reliability.py:61-64 | the loop starts with nothing written |
| Reliability.PrependCycle | src/VeraGridEngine/Simulations/Reliability/reliability.py:66-87 | a failure and a recovery that both end within the horizon write one on block, one off block and one failure |
| Reliability.PrependLastOn | src/VeraGridEngine/Simulations/Reliability/reliability.py:69-71 | a failure draw that passes the horizon fills the rest with on and returns |
| Reliability.PrependLastOff | src/VeraGridEngine/Simulations/Reliability/reliability.py:79-82 | a recovery draw that passes the horizon fills the rest with off, counts the failure and returns |
| Reliability.ComposeStates | src/VeraGridEngine/Simulations/Reliability/reliability.py:34-89 | the loop computes the schedule specification; mttf == 0 or mttr == 0 gives horizon ones and zero failures |
| Reliability.StatesFrom | src/VeraGridEngine/Simulations/Reliability/reliability.py:108-111 | the remaining elements each get a schedule of length horizon, read one after another from the random stream |
| Reliability.StatesStep | src/VeraGridEngine/Simulations/Reliability/reliability.py:108-111 | one element's pass writes its schedule and adds its failures to the running total |
| Reliability.WriteColumn | src/VeraGridEngine/Simulations/Reliability/reliability.py:109 | states[:, k] = col sets column k to col and leaves the other columns unchanged |
| Reliability.PrependAllEmpty | src/VeraGridEngine/Simulations/Reliability/reliability.py:104-106 | the element loop starts with no columns written |
| Reliability.GenerateStatesMatrix | src/VeraGridEngine/Simulations/Reliability/reliability.py:93-112 | AssertionError exactly when mttf and mttr differ in length; otherwise column k is element k's schedule and the failure count is the sum over columns |
| Reliability.TrueIndices | src/VeraGridEngine/Simulations/Reliability/reliability.py:139-146 | the positions flagged true, strictly increasing, each flagged, and every flagged position present |
| Reliability.FindDifferentStates | src/VeraGridEngine/Simulations/Reliability/reliability.py:116-146 | AssertionError exactly when the shapes differ; otherwise exactly the rows where the matrices differ in some column, strictly increasing |
| Reliability.RowDiffers | src/VeraGridEngine/Simulations/Reliability/reliability.py:128-133 | the inner loop reports whether row t differs in some column |
| Reliability.KeptIndices | src/VeraGridEngine/Simulations/Reliability/reliability.py:139-146 | the second loop writes the flagged positions in order, and there are count of them |
| Reliability.CountTruePrefix | src/VeraGridEngine/Simulations/Reliability/reliability.py:135-137 | count grows by one per flagged row |
| Reliability.ScanOpen | src/VeraGridEngine/Simulations/Reliability/reliability.py:157-170 | the pending list is a run of failing rows that reaches the last row scanned |
| Reliability.ScanRuns | src/VeraGridEngine/Simulations/Reliability/reliability.py:163-170 | each emitted block is a maximal run of consecutive failing rows, followed by an all-active row |
| Reliability.ScanOrdered | src/VeraGridEngine/Simulations/Reliability/reliability.py:157-170 | blocks come in increasing time order and the pending run starts after all of them |
| Reliability.ScanComplete | src/VeraGridEngine/Simulations/Reliability/reliability.py:159-170 | every failing row followed by an all-active row within the horizon lies in an emitted block |
| Reliability.FindTimeBlocks | src/VeraGridEngine/Simulations/Reliability/reliability.py:150-171 | maximal failing runs in time order, each emitted only when an all-active row follows it, so a run reaching the horizon is dropped |
| Reliability.LossIsShortfallSum | src/VeraGridEngine/Simulations/Reliability/reliability.py:187-192 | the loss is the sum over hours of dt times the load's excess over generation, counting only hours with a shortfall |
| Reliability.LossNonNegative | src/VeraGridEngine/Simulations/Reliability/reliability.py:191-192 | with non-negative time steps the loss of load is never negative |
| Reliability.LossZeroWhenCovered | src/VeraGridEngine/Simulations/Reliability/reliability.py:191 | when generation covers the load at every hour the loss is zero |
| Reliability.ComputeLossOfLoad | src/VeraGridEngine/Simulations/Reliability/reliability.py:175-194 | AssertionError exactly when the row counts differ; otherwise the accumulated loss specification |
| WardReduction.GetReductionSets | src/VeraGridEngine/Topology/GridReduction/ward_equivalents.py:21-72 | external is the sorted, de-duplicated input; a branch is listed, in increasing order, exactly when one end is external; boundary is exactly the non-external ends of those branches; internal is exactly the ends of purely internal branches minus the boundary buses, so it meets neither the external nor the boundary set; all three arrays ascend |
| WardReduction.ClassifyBranches | src/VeraGridEngine/Topology/GridReduction/ward_equivalents.py:35-56 | the branch loop collects exactly the boundary buses, the ends of internal branches, and the crossing branches in branch order |
| WardReduction.CommonMembers | src/VeraGridEngine/Topology/GridReduction/ward_equivalents.py:59-62 | exactly the internal buses that are also boundary buses are collected |
| WardReduction.RemoveAll | src/VeraGridEngine/Topology/GridReduction/ward_equivalents.py:64-65 | the internal set loses exactly the collected buses |
| WardReduction.RemoveFromSet | src/VeraGridEngine/Topology/GridReduction/ward_equivalents.py:65 | set.remove of x leaves every other member and only those |
| Contingency.NormSq | src/VeraGridEngine/Simulations/ContingencyAnalysis/contingency_analysis_ts_driver.py:54-55 | the squared modulus is non-negative, and comparing it orders complex numbers as abs does |
| Contingency.MaxMagnitudePerCol | src/VeraGridEngine/Simulations/ContingencyAnalysis/contingency_analysis_ts_driver.py:33-58 | one entry per column: zero when every entry of the column has magnitude zero, else the first entry of the column whose magnitude is largest |
| Contingency.ColumnMax | src/VeraGridEngine/Simulations/ContingencyAnalysis/contingency_analysis_ts_driver.py:38-42 | the inner loop sets entry j to the first largest-magnitude entry of column j (or leaves zero) and no other entry |
| Contingency.MaxAbsPerCol | src/VeraGridEngine/Simulations/ContingencyAnalysis/contingency_analysis_ts_driver.py:33-44 | one entry per column, the first entry of largest absolute value, which bounds every entry of the column; it is 0 exactly when the column is all zero |
| Contingency.MaxAbsPerColCx | src/VeraGridEngine/Simulations/ContingencyAnalysis/contingency_analysis_ts_driver.py:47-58 | the same rule under the complex modulus |
| Contingency.ScanInput.Sbr0 | src/VeraGridEngine/Simulations/ContingencyAnalysis/Methods/linear_contingency_analysis.py:175 | PTDF @ Pbus: one entry per PTDF row, entry m the dot product of row m with the injections (BaseFlow) |
| Contingency.ScanInput.LastPair | src/VeraGridEngine/Simulations/ContingencyAnalysis/Methods/linear_contingency_analysis.py:188-191 | the entry SbrCon[g, m] keeps the flow of the last contingency pair of group g, the later writes overwriting the earlier |
| Contingency.ScanInput.BranchLists | src/VeraGridEngine/Simulations/ContingencyAnalysis/Methods/linear_contingency_analysis.py:178-199 | the problem list is built one monitored position after another, each adding that branch's problems |
| Contingency.SetColumn | src/VeraGridEngine/Simulations/ContingencyAnalysis/Methods/linear_contingency_analysis.py:184 | LoadingCon[:, m] = v sets column m and no other entry |
| Contingency.ScanBranch | src/VeraGridEngine/Simulations/ContingencyAnalysis/Methods/linear_contingency_analysis.py:181-199 | one monitored branch: ZeroDivisionError exactly when rates[m] + 1e-9 is zero, or the branch is within its base rating, con_rates[m] + 1e-9 is zero and some pair overloads it; otherwise its loading column is the base loading, raised to the contingency loading for groups whose pair overloads it, SbrCon holds the last pair's flow when the base case is within rating, and the problems recorded are (m, -1) on a base overload, else (m, c) per overloading pair |
| Contingency.ApplyPair | src/VeraGridEngine/Simulations/ContingencyAnalysis/Methods/linear_contingency_analysis.py:188-197 | one contingency pair: writes its group's flow for branch m; on an overload, ZeroDivisionError exactly when con_rates[m] + 1e-9 is zero, else the contingency loading and the problem (m, c); other entries unchanged |
| Contingency.ScanPairs | src/VeraGridEngine/Simulations/ContingencyAnalysis/Methods/linear_contingency_analysis.py:188-197 | the pair loop of a branch within its base rating: ZeroDivisionError exactly when con_rates[m] + 1e-9 is zero and some pair overloads the branch; otherwise column m holds each group's last flow and its loading, and the problems are the overloading pairs in order; other columns unchanged |
| Contingency.TrippedStep | src/VeraGridEngine/Simulations/ContingencyAnalysis/Methods/linear_contingency_analysis.py:193-195 | a group is tripped after pair p exactly when it was before or pair p belongs to it and overloads the branch |
| Contingency.LinearContingencyScan | src/VeraGridEngine/Simulations/ContingencyAnalysis/Methods/linear_contingency_analysis.py:150-201 | AssertionError exactly when the pair arrays differ in length, then ValueError exactly when PTDF @ Pbus has mismatched shapes; both matrices are groups × branches, zero in unmonitored columns, and hold the flows and loadings above; problems follow the order of mon_idx, then the order of the pairs; ZeroDivisionError exactly when some monitored branch divides by zero, whatever the ratings of unmonitored branches |
| Contingency.ScanMonitored | src/VeraGridEngine/Simulations/ContingencyAnalysis/Methods/linear_contingency_analysis.py:178-199 | the monitored-branch loop: ZeroDivisionError exactly when one of the monitored branches divides by zero; otherwise the monitored columns hold the flows and loadings, the others stay zero, and the problems come in mon_idx order |
| Contingency.ScanDividesStep | src/VeraGridEngine/Simulations/ContingencyAnalysis/Methods/linear_contingency_analysis.py:181-195 | scanning one more monitored branch raises exactly when that branch divides by zero or an earlier one did |
| Contingency.AnyTripsStep | src/VeraGridEngine/Simulations/ContingencyAnalysis/Methods/linear_contingency_analysis.py:193-195 | one more pair overloads the branch exactly when it does or an earlier pair did |
| Contingency.ScanProblemsMembership | src/VeraGridEngine/Simulations/ContingencyAnalysis/Methods/linear_contingency_analysis.py:186-199 | (m, c) is a problem exactly when m is monitored and either c = -1 and the base flow exceeds the rating, or the base flow is within rating and pair c's flow exceeds the contingency rating |
| Contingency.ProblemsStep | src/VeraGridEngine/Simulations/ContingencyAnalysis/Methods/linear_contingency_analysis.py:178-199 | one more monitored position appends exactly that branch's problems |
| Contingency.BranchProblemsMembership | src/VeraGridEngine/Simulations/ContingencyAnalysis/Methods/linear_contingency_analysis.py:186-199 | a branch's problems all name that branch, and are exactly its base or contingency overloads |
| Contingency.PairProblemsMembership | src/VeraGridEngine/Simulations/ContingencyAnalysis/Methods/linear_contingency_analysis.py:188-197 | the pair loop records (m, c) exactly when some pair with branch c overloads m |
| Common.SortedUnique | src/VeraGridEngine/Topology/GridReduction/ward_equivalents.py:68-70 | np.sort(np.array(list(set))): strictly increasing, holding exactly the elements of the set |
| Common.AddToSet | src/VeraGridEngine/Topology/GridReduction/ward_equivalents.py:44-56 | set.add: the elements afterwards are the old ones and x |
| Common.NatStr | src/VeraGridEngine/Topology/VoltageLevels/single_bar.py:23 | str(i) in the f-string names: a non-empty string of decimal digits, which int() reads back as i (PyIntOfNatStr) |
| Grid.MultiCircuit.AddSubstation | src/VeraGridEngine/Topology/VoltageLevels/common_functions.py:362 | the substation is appended and nothing else changes |
| Grid.MultiCircuit.AddVoltageLevel | src/VeraGridEngine/Topology/VoltageLevels/single_bar.py:53-54 | the voltage level is appended and nothing else changes |
| Grid.MultiCircuit.AddBus | src/VeraGridEngine/Topology/VoltageLevels/common_functions.py:61 | the bus is appended under a fresh id, and bus ids stay unique |
| Grid.MultiCircuit.AddBuses | src/VeraGridEngine/Topology/VoltageLevels/single_bar.py:141-149 | the buses are appended in order under consecutive fresh ids, which are returned |
| Grid.MultiCircuit.AddSwitch | src/VeraGridEngine/Topology/VoltageLevels/single_bar.py:153 | the switch is appended and nothing else changes |
| Grid.MultiCircuit.AddSwitches | src/VeraGridEngine/Topology/VoltageLevels/single_bar.py:153-155 | the switches are appended in order and nothing else changes |
| Grid.MultiCircuit.AddLine | src/VeraGridEngine/Topology/VoltageLevels/common_functions.py:100 | the line is appended and nothing else changes |
| Grid.MultiCircuit.DeleteBus | src/VeraGridEngine/Topology/VoltageLevels/common_functions.py:104 | only that bus is removed; the devices that referred to it keep the reference; ids stay unique |
| Grid.MultiCircuit.SetBranchFrom | src/VeraGridEngine/Topology/VoltageLevels/common_functions.py:65-66 | only the from end of branch k is moved to the new bus |
| Grid.MultiCircuit.SetBranchTo | src/VeraGridEngine/Topology/VoltageLevels/common_functions.py:68-69 | only the to end of branch k is moved to the new bus |
| Grid.MultiCircuit.SetInjectionBus | src/VeraGridEngine/Topology/VoltageLevels/common_functions.py:88 | only injection k is moved to the new bus |
| Grid.WithoutBus | src/VeraGridEngine/Topology/VoltageLevels/common_functions.py:104 | exactly the buses other than the deleted one remain |
| Grid.WithoutBusFresh | src/VeraGridEngine/Topology/VoltageLevels/common_functions.py:104 | deleting a bus keeps the remaining ids unique and below the counter |
| Grid.FreshBelowAppend | src/VeraGridEngine/Topology/VoltageLevels/common_functions.py:84 | appending buses with consecutive fresh ids keeps ids unique |
| Layouts.Sections | src/VeraGridEngine/Topology/VoltageLevels/single_bar.py:21-27 | one section line per adjacent pair of bar segments, line i joining segment i to segment i + 1 and named after i |
| Layouts.ConnectBarSegments | src/VeraGridEngine/Topology/VoltageLevels/single_bar.py:12-27 | connect_bar_segments appends exactly those section lines and changes nothing else |
| Layouts.AddIteration | src/VeraGridEngine/Topology/VoltageLevels/single_bar.py:78-155 | one bay appends its bar segment (when segmented) and its bay buses under fresh ids, then its switches wired to the bar in force and to its own buses |
| Layouts.RunBays | src/VeraGridEngine/Topology/VoltageLevels/single_bar.py:76-157 | the bay loop appends every bay's buses and switches in bay order and returns one connection bus per bay, the segment lists and the last bar in force |
| Layouts.ChainSegments | src/VeraGridEngine/Topology/VoltageLevels/double_bar.py:209-214 | each segment list is chained into section lines, in list order |
| Layouts.AddBars | src/VeraGridEngine/Topology/VoltageLevels/single_bar.py:64-71 | the bars added before the loop get consecutive fresh ids |
| Layouts.AddBody | src/VeraGridEngine/Topology/VoltageLevels/single_bar.py:76-161 | the bay loop, then the coupling bay, then the section lines |
| Layouts.BuildLevel | src/VeraGridEngine/Topology/VoltageLevels/single_bar.py:30-166 | a builder adds its voltage level and exactly the buses, switches and lines of its layout, and returns its connection buses |
| Layouts.AddLevel | src/VeraGridEngine/Topology/VoltageLevels/single_bar.py:30-166 | the same, and bus ids stay unique |
| Layouts.AddSegmented | src/VeraGridEngine/Topology/VoltageLevels/single_bar.py:597-678 | a segmented bar built on its own, its bays on their own segments, then its section lines |
| Layouts.AddTwoSegmented | src/VeraGridEngine/Topology/VoltageLevels/single_bar.py:531-691 | two segmented halves one after the other in one voltage level, each chained on its own |
| Layouts.AddPair | src/VeraGridEngine/Topology/VoltageLevels/single_bar.py:597-678 | the two segmented halves in turn, the second numbered after the first, grow the grid by both |
| Layouts.BuildConsecutive | src/VeraGridEngine/Topology/VoltageLevels/single_bar.py:69-149 | a builder's buses get consecutive ids in the order they are added |
| Layouts.BuildFresh | src/VeraGridEngine/Topology/VoltageLevels/single_bar.py:69-149 | adding a builder's buses keeps every bus id unique |
| Layouts.BuildBusCount | src/VeraGridEngine/Topology/VoltageLevels/single_bar.py:64-151 | the bus count is the bars, plus the bay's buses per iteration (with a segment when segmented), plus the coupling's |
| Layouts.BuildSwitchCount | src/VeraGridEngine/Topology/VoltageLevels/single_bar.py:153-155 | the switch count is the bay's switches per iteration plus the coupling's |
| Layouts.BuildSwitchTail | src/VeraGridEngine/Topology/VoltageLevels/double_bar.py:189-203 | the coupling's switches come after all bay switches |
| Layouts.BuildConnCount | src/VeraGridEngine/Topology/VoltageLevels/single_bar.py:157 | the number of connection buses is the bay's per iteration |
| Layouts.BuildConnAbove | src/VeraGridEngine/Topology/VoltageLevels/single_bar.py:157 | every returned connection bus is a bus the builder created |
| Layouts.BuildLineCount | src/VeraGridEngine/Topology/VoltageLevels/single_bar.py:159-161 | a segmented build chains each segment list into one line fewer than its length; an unsegmented one adds no line |
| Layouts.BuildSegLines | src/VeraGridEngine/Topology/VoltageLevels/single_bar.py:159-161 | a segmented build's lines are exactly the chains of its segment lists |
| Layouts.SegListsIs | src/VeraGridEngine/Topology/VoltageLevels/single_bar.py:88-91 | segment list c holds the c-th segment of every iteration, in order |
| Layouts.SegLinesCount | src/VeraGridEngine/Topology/VoltageLevels/single_bar.py:159-161 | each of the segment lists gives the number of iterations minus one lines |
| Layouts.UniformCounts | src/VeraGridEngine/Topology/VoltageLevels/single_bar.py:64-161 | bus, switch, connection and line counts of a build of m iterations |
| Layouts.UniformSwitch | src/VeraGridEngine/Topology/VoltageLevels/single_bar.py:126-139 | switch k of iteration j is its pattern wired to the bar in force and to the iteration's own buses |
| Layouts.UniformCouplingSwitch | src/VeraGridEngine/Topology/VoltageLevels/double_bar.py:189-191 | the coupling switches are wired to the bars in force after the loop |
| Layouts.UniformConnAt | src/VeraGridEngine/Topology/VoltageLevels/single_bar.py:157 | the connection bus of iteration j is that iteration's own bus |
| SingleBar.OneBarCounts | src/VeraGridEngine/Topology/VoltageLevels/single_bar.py:64-161 | a one-bar build has one bar (or one segment per bay), w buses per bay, its switches per bay and one connection bus per bay |
| SingleBar.OneBarSwitch | src/VeraGridEngine/Topology/VoltageLevels/single_bar.py:126-139 | each bay switch is wired to the bay's bar (or its own segment) and the bay's own buses |
| SingleBar.OneBarConn | src/VeraGridEngine/Topology/VoltageLevels/single_bar.py:157 | the returned connection buses are the bays' bus1, in bay order |
| SingleBar.OneBarLines | src/VeraGridEngine/Topology/VoltageLevels/single_bar.py:159-161 | segmented with more than one bay, the section lines chain the segments in bay order; otherwise there are none |
| SingleBar.CreateSingleBar | src/VeraGridEngine/Topology/VoltageLevels/single_bar.py:30-166 | create_single_bar adds its voltage level and exactly the single-bar layout, returning the connection buses |
| SingleBar.SingleBarCounts | src/VeraGridEngine/Topology/VoltageLevels/single_bar.py:64-157 | one bar and three buses per bay, or four per bay with its segment first; three switches per bay; one connection bus per bay |
| SingleBar.SingleBarNames | src/VeraGridEngine/Topology/VoltageLevels/single_bar.py:64-124 | the bar is named "{name} bar" or "{name} bar (i + 1)", the bay buses "{name}_bay_conn_i", "LineBus2_i" and "LineBus3_i" |
| SingleBar.SingleBarSwitches | src/VeraGridEngine/Topology/VoltageLevels/single_bar.py:126-139 | Dis1_i joins bus1 and bus2, the breaker CB_i bus2 and bus3, Dis2_i the bar and bus3 |
| SingleBar.CreateSingleBarWithDisconnectors | src/VeraGridEngine/Topology/VoltageLevels/single_bar.py:169-271 | create_single_bar_with_disconnectors adds exactly its layout |
| SingleBar.DisconnectorsCounts | src/VeraGridEngine/Topology/VoltageLevels/single_bar.py:203-262 | one bar and one bus per bay, or two per bay when segmented; one breaker per bay |
| SingleBar.DisconnectorsSwitches | src/VeraGridEngine/Topology/VoltageLevels/single_bar.py:251-255 | bay i's breaker CB_i runs from its connection bus to the bar |
| SingleBar.CreateSingleBarWithBypass | src/VeraGridEngine/Topology/VoltageLevels/single_bar.py:274-418 | create_single_bar_with_bypass adds exactly its layout |
| SingleBar.BypassCounts | src/VeraGridEngine/Topology/VoltageLevels/single_bar.py:308-409 | one bar and three buses per bay, or four per bay when segmented; four switches per bay |
| SingleBar.BypassSwitches | src/VeraGridEngine/Topology/VoltageLevels/single_bar.py:372-391 | bus1, Dis1, bus2, CB, bus3, Dis2, bar in series, and Bypass_Dis_i from bus1 straight to the bar |
| SingleBar.CreateSingleBarWithBypassWithDisconnectors | src/VeraGridEngine/Topology/VoltageLevels/single_bar.py:421-528 | create_single_bar_with_bypass_with_disconnectors adds exactly its layout |
| SingleBar.BypassDisconnectorsCounts | src/VeraGridEngine/Topology/VoltageLevels/single_bar.py:456-519 | one bar and one bus per bay, or two per bay when segmented; two switches per bay |
| SingleBar.BypassDisconnectorsSwitches | src/VeraGridEngine/Topology/VoltageLevels/single_bar.py:502-511 | a breaker and a by-pass disconnector in parallel, both from bus1 to the bar |
| Splitter.SplitterCounts | src/VeraGridEngine/Topology/VoltageLevels/single_bar.py:568-690 | unsegmented: bars "{name} bar 1" and "{name} bar 2", three buses and three switches per bay, then CB_bars, and no lines |
| Splitter.SplitterSwitch | src/VeraGridEngine/Topology/VoltageLevels/single_bar.py:652-654 | each bay switch is wired to the bay's bar and its own buses |
| Splitter.LocalSwitch | src/VeraGridEngine/Topology/VoltageLevels/single_bar.py:652-653 | a switch named after its bay joins two of the bay's own buses |
| Splitter.SideSwitch | src/VeraGridEngine/Topology/VoltageLevels/single_bar.py:654 | a switch named after its bay runs from the bay's bar to one of its own buses |
| Splitter.SplitterDis1 | src/VeraGridEngine/Topology/VoltageLevels/single_bar.py:652 | Dis1_i runs from bus1 to bus2 |
| Splitter.SplitterCb | src/VeraGridEngine/Topology/VoltageLevels/single_bar.py:653 | CB_i runs from bus2 to bus3 |
| Splitter.SplitterDis2 | src/VeraGridEngine/Topology/VoltageLevels/single_bar.py:599-654 | Dis2_i runs from bar 1 for the first n // 2 bays, otherwise from bar 2, to bus3 |
| Splitter.SplitterCoupling | src/VeraGridEngine/Topology/VoltageLevels/single_bar.py:679-685 | after the loop, CB_bars couples bar 1 to bar 2 |
| Splitter.SplitterConn | src/VeraGridEngine/Topology/VoltageLevels/single_bar.py:672 | the connection buses are the bays' bus1, in bay order |
| Splitter.SideShape | src/VeraGridEngine/Topology/VoltageLevels/single_bar.py:597-672 | each half of a segmented splitter is a one-bar build with its own segments |
| Splitter.SideCounts | src/VeraGridEngine/Topology/VoltageLevels/single_bar.py:597-672 | a segmented half has four buses, three switches and one connection bus per bay |
| Splitter.PairIs | src/VeraGridEngine/Topology/VoltageLevels/single_bar.py:597-672 | bar 2's bays start four ids per bay after bar 1's |
| Splitter.PairBusCount | src/VeraGridEngine/Topology/VoltageLevels/single_bar.py:597-666 | four buses per bay: the segment, bus1, bus2 and bus3 |
| Splitter.PairSwitchCount | src/VeraGridEngine/Topology/VoltageLevels/single_bar.py:668-670 | three switches per bay |
| Splitter.PairConnCount | src/VeraGridEngine/Topology/VoltageLevels/single_bar.py:672 | one connection bus per bay |
| Splitter.PairLines | src/VeraGridEngine/Topology/VoltageLevels/single_bar.py:674-678 | each half's segments are chained on their own; no line joins the two halves |
| Splitter.TwoSidesBusCount | src/VeraGridEngine/Topology/VoltageLevels/single_bar.py:597-666 | the segmented splitter has four buses per bay |
| Splitter.TwoSidesSwitchCount | src/VeraGridEngine/Topology/VoltageLevels/single_bar.py:668-670 | the segmented splitter has three switches per bay |
| Splitter.TwoSidesConnCount | src/VeraGridEngine/Topology/VoltageLevels/single_bar.py:672 | the segmented splitter returns one connection bus per bay |
| Splitter.TwoSidesLines | src/VeraGridEngine/Topology/VoltageLevels/single_bar.py:674-678 | bar 1's segments and bar 2's segments are chained separately |
| Splitter.TwoSidesIs | src/VeraGridEngine/Topology/VoltageLevels/single_bar.py:568-569 | bar 1 takes n // 2 bays and bar 2 the rest, bar 2's starting right after bar 1's |
| Splitter.SideDis1 | src/VeraGridEngine/Topology/VoltageLevels/single_bar.py:652 | in either half, Dis1_i joins the bay's bus1 and bus2, numbered by the global bay index |
| Splitter.SideCb | src/VeraGridEngine/Topology/VoltageLevels/single_bar.py:653 | CB_i joins the bay's bus2 and bus3 |
| Splitter.SideDis2 | src/VeraGridEngine/Topology/VoltageLevels/single_bar.py:654 | Dis2_i hangs bus3 from the bay's own segment |
| Splitter.SideSwitchAt | src/VeraGridEngine/Topology/VoltageLevels/single_bar.py:668-670 | bay j's switches are entries 3j to 3j + 2 of its half |
| Splitter.SideSegmentAt | src/VeraGridEngine/Topology/VoltageLevels/single_bar.py:601-634 | bay i's segment is named "{name} bar1 (i + 1)" or "{name} bar2 (i + 1)" |
| Splitter.SideConnAt | src/VeraGridEngine/Topology/VoltageLevels/single_bar.py:640-672 | each bay's connection bus comes right after its segment |
| Splitter.CreateSegmentedSplitter | src/VeraGridEngine/Topology/VoltageLevels/single_bar.py:597-678 | the segmented splitter as evidently intended: bar 1's half, then bar 2's |
| Splitter.CreateSingleBarWithSplitter | src/VeraGridEngine/Topology/VoltageLevels/single_bar.py:531-690 | create_single_bar_with_splitter with the segmented branch as evidently intended; unsegmented as written |
| Splitter.SplitterAsWrittenRaises | src/VeraGridEngine/Topology/VoltageLevels/single_bar.py:601-641 | as written, a segmented splitter with a bay adds one segment and then raises UnboundLocalError on x_offset, instead of the 4n buses intended |
| Splitter.SplitterAsWrittenAgrees | src/VeraGridEngine/Topology/VoltageLevels/single_bar.py:574-690 | unsegmented, or with no bay, the code as written builds the intended level |
| Splitter.CouplersAppend | src/VeraGridEngine/Topology/VoltageLevels/single_bar.py:752-790 | couplers of a concatenated switch list add up |
| Splitter.SplitterDisSwitch | src/VeraGridEngine/Topology/VoltageLevels/single_bar.py:755-769 | bay i adds CB_i from bar 1 (first n // 2 bays) or bar 2 to its connection bus |
| Splitter.SplitterDisCoupling | src/VeraGridEngine/Topology/VoltageLevels/single_bar.py:786-790 | the coupling after the loop is CB_bars again |
| Splitter.SplitterDisBaysCouple | src/VeraGridEngine/Topology/VoltageLevels/single_bar.py:769 | no bay breaker joins the two bars |
| Splitter.CouplersAfter | src/VeraGridEngine/Topology/VoltageLevels/single_bar.py:752-790 | only the switches after the bays can couple the bars |
| Splitter.SplitterDisTail | src/VeraGridEngine/Topology/VoltageLevels/single_bar.py:784-790 | after the bays comes CB_bars again when unsegmented, or nothing |
| Splitter.SplitterDisCouplers | src/VeraGridEngine/Topology/VoltageLevels/single_bar.py:752-790 | as written the bars are coupled by CB_bars once before the loop and once more after it when unsegmented: two couplers |
| Splitter.CreateSingleBarWithSplitterWithDisconnectors | src/VeraGridEngine/Topology/VoltageLevels/single_bar.py:693-795 | create_single_bar_with_splitter_with_disconnectors as written: CB_bars before the loop and, unless segmented, once more after it; segmented or not, the bars are whole |
| Splitter.CreateSplitterWithOneCoupler | src/VeraGridEngine/Topology/VoltageLevels/single_bar.py:693-795 | the same builder as evidently intended: CB_bars once, before the loop, so the bars have one coupler |
| DoubleBar.Shapes | src/VeraGridEngine/Topology/VoltageLevels/double_bar.py:80-166 | the four double-bar layouts share one shape: a segment of every bar per bay, one bay per loop index, bus1 as connection bus |
| DoubleBar.BaysSwitch | src/VeraGridEngine/Topology/VoltageLevels/double_bar.py:144-147 | each bay switch is wired to the bars in force for the bay and to the bay's own buses |
| DoubleBar.BaysConn | src/VeraGridEngine/Topology/VoltageLevels/double_bar.py:166 | the connection buses are the bays' bus1, in bay order |
| DoubleBar.BaysLines | src/VeraGridEngine/Topology/VoltageLevels/double_bar.py:209-214 | segmented, each bar's segments are chained in bay order, bar after bar; unsegmented there are no lines |
| DoubleBar.TwoBarLines | src/VeraGridEngine/Topology/VoltageLevels/double_bar.py:209-214 | two bars: the bar1 segments, then the bar2 segments, each chained in bay order |
| DoubleBar.ThreeBarLines | src/VeraGridEngine/Topology/VoltageLevels/double_bar.py:561-569 | three bars: the bar1, bar2 and transfer-bar segments, each chained in bay order |
| DoubleBar.CreateDoubleBar | src/VeraGridEngine/Topology/VoltageLevels/double_bar.py:13-216 | create_double_bar adds its voltage level and exactly the double-bar layout, returning the connection buses |
| DoubleBar.DoubleBarCounts | src/VeraGridEngine/Topology/VoltageLevels/double_bar.py:48-203 | two bars and three buses per bay, or five per bay with two segments first, then two coupling buses; four switches per bay and three for the coupling |
| DoubleBar.DoubleBarSwitches | src/VeraGridEngine/Topology/VoltageLevels/double_bar.py:144-147 | Dis1_i from bus1 to bus2, CB_i from bus2 to bus3, Dis2_i from bar1 and Dis3_i from bar2 to bus3 |
| DoubleBar.DoubleBarCoupling | src/VeraGridEngine/Topology/VoltageLevels/double_bar.py:168-191 | each bar (its last segment when segmented) to its coupling bus, and CB_coupling between the two coupling buses |
| DoubleBar.DoubleBarLines | src/VeraGridEngine/Topology/VoltageLevels/double_bar.py:209-214 | segmented, the bar1 segments and then the bar2 segments are chained in bay order |
| DoubleBar.CreateDoubleBarWithDisconnectors | src/VeraGridEngine/Topology/VoltageLevels/double_bar.py:219-358 | create_double_bar_with_disconnectors adds exactly its layout |
| DoubleBar.DoubleBarDisCounts | src/VeraGridEngine/Topology/VoltageLevels/double_bar.py:254-344 | two bars and two buses per bay, or four per bay, and no coupling bus; three switches per bay and one for the coupling |
| DoubleBar.DoubleBarDisSwitches | src/VeraGridEngine/Topology/VoltageLevels/double_bar.py:325-327 | CB_i from bus1 to bus2, then Dis2_i from bar1 and Dis3_i from bar2 to bus2 |
| DoubleBar.DoubleBarDisCoupling | src/VeraGridEngine/Topology/VoltageLevels/double_bar.py:344 | CB_coupling joins bar1 to bar2 (their last segments when segmented) |
| DoubleBar.DoubleBarDisLines | src/VeraGridEngine/Topology/VoltageLevels/double_bar.py:348-353 | segmented, the two bars' segments are chained in bay order |
| DoubleBar.CreateDoubleBarWithTransferenceBar | src/VeraGridEngine/Topology/VoltageLevels/double_bar.py:361-571 | the corrected builder: create_double_bar_with_transference_bar with Dis4 and Dis_coupling attached to the transfer bar, or to the bay's bar_t segment when segmented; unsegmented, the only way the dispatch calls it, it is the source as written (TransferAsWrittenAgrees); as written, a segmented build leaves these ends unattached (TransferAsWrittenUnset) |
| DoubleBar.TransferCounts | src/VeraGridEngine/Topology/VoltageLevels/double_bar.py:396-541 | three bars and three buses per bay, or six per bay, then two coupling buses; five switches per bay and four for the coupling |
| DoubleBar.TransferSwitches | src/VeraGridEngine/Topology/VoltageLevels/double_bar.py:496-499 | the double-bar bay's four switches, whatever the transfer bar is |
| DoubleBar.TransferDis4 | src/VeraGridEngine/Topology/VoltageLevels/double_bar.py:500 | Dis4_i runs from bus1 to the transfer bar, the bay's own bar_t segment when segmented |
| DoubleBar.TransferCoupling | src/VeraGridEngine/Topology/VoltageLevels/double_bar.py:523-541 | the coupling: Dis_bar1 and Dis_bar2 from its first bus to each bar, CB_coupling between its buses, Dis_coupling from its second bus to the transfer bar |
| DoubleBar.TransferLines | src/VeraGridEngine/Topology/VoltageLevels/double_bar.py:561-569 | segmented, the bar1, bar2 and bar_t segments are chained, each in bay order |
| DoubleBar.TransferAsWrittenUnset | src/VeraGridEngine/Topology/VoltageLevels/double_bar.py:429-541 | as written, a segmented build leaves Dis4 of every bay and Dis_coupling with no bus at their transfer-bar end, although it adds n bar_t segments |
| DoubleBar.TransferAsWrittenAgrees | src/VeraGridEngine/Topology/VoltageLevels/double_bar.py:396-423 | unsegmented, the builder as written and the corrected one are the same |
| DoubleBar.CreateDoubleBarWithTransferenceBarWithDisconnectors | src/VeraGridEngine/Topology/VoltageLevels/double_bar.py:574-754 | the corrected builder: create_double_bar_with_transference_bar_with_disconnectors with Dis3 and the coupling breaker attached to the transfer bar, or to the bay's bar_t segment when segmented; unsegmented it is the source as written (TransferAsWrittenAgrees); as written, a segmented build leaves these ends unattached (TransferDisAsWrittenUnset) |
| DoubleBar.TransferDisCounts | src/VeraGridEngine/Topology/VoltageLevels/double_bar.py:610-729 | three bars and two buses per bay, or five per bay, then one coupling bus; four switches per bay and three for the coupling |
| DoubleBar.TransferDisSwitches | src/VeraGridEngine/Topology/VoltageLevels/double_bar.py:699-702 | CB_i from bus1 to bus2, Dis1_i and Dis2_i from bus2 to bar1 and bar2, Dis3_i from bus1 to the transfer bar |
| DoubleBar.TransferDisCoupling | src/VeraGridEngine/Topology/VoltageLevels/double_bar.py:720-729 | the coupling bus reaches bar1 and bar2 through disconnectors and the transfer bar through CB_coupling |
| DoubleBar.TransferDisLines | src/VeraGridEngine/Topology/VoltageLevels/double_bar.py:744-752 | segmented, the three bars' segments are chained, each in bay order |
| DoubleBar.TransferDisAsWrittenUnset | src/VeraGridEngine/Topology/VoltageLevels/double_bar.py:639-729 | as written, a segmented build leaves Dis3 of every bay and the coupling breaker with no bus at their transfer-bar end |
| BreakerAndAHalf.DiametersRange | src/VeraGridEngine/Topology/VoltageLevels/breaker_and_a_half.py:68 | range(0, n_bays, 2) runs iteration j exactly when 2j < n_bays, so the diameters serve n_bays rounded up to even |
| BreakerAndAHalf.PairedSwitch | src/VeraGridEngine/Topology/VoltageLevels/breaker_and_a_half.py:146-158 | the step-2 instance of Layouts.UniformSwitch: switch k of diameter j is its pattern wired to the bars in force and the diameter's own buses, named by the bay index 2j |
| BreakerAndAHalf.PairedConn | src/VeraGridEngine/Topology/VoltageLevels/breaker_and_a_half.py:212-213 | diameter j returns its two connection buses at positions 2j and 2j + 1 |
| BreakerAndAHalf.CreateBreakerAndAHalf | src/VeraGridEngine/Topology/VoltageLevels/breaker_and_a_half.py:13-226 | create_breaker_and_a_half as written adds its voltage level and exactly the diameter layout, bus5 named LineBus4_i and dis7, dis8 named Dis6_i |
| BreakerAndAHalf.CreateBreakerAndAHalfRenamed | src/VeraGridEngine/Topology/VoltageLevels/breaker_and_a_half.py:13-226 | the same builder as evidently intended, bus5 named LineBus5_i, dis7 Dis7_i and dis8 Dis8_i |
| BreakerAndAHalf.BreakerAndAHalfCounts | src/VeraGridEngine/Topology/VoltageLevels/breaker_and_a_half.py:48-213 | two bars and ten buses per diameter, or twelve per diameter with two segments first; eleven switches per diameter; two connection buses per diameter |
| BreakerAndAHalf.BreakerAndAHalfPath | src/VeraGridEngine/Topology/VoltageLevels/breaker_and_a_half.py:146-158 | the path bar1, Dis1, SW1, Dis2, Dis4, SW2, Dis5, Dis7, SW3, Dis8, bar2 through the diameter's buses, with SW2 and SW3 disconnectors as written |
| BreakerAndAHalf.BreakerAndAHalfPathEnd | src/VeraGridEngine/Topology/VoltageLevels/breaker_and_a_half.py:152-158 | the second half of that path, from bus5 to bar2 |
| BreakerAndAHalf.BreakerAndAHalfTaps | src/VeraGridEngine/Topology/VoltageLevels/breaker_and_a_half.py:149-155 | the breakers Dis3 from bus3 to the first connection bus and Dis6 from bus6 to the second |
| BreakerAndAHalf.BreakerAndAHalfConn | src/VeraGridEngine/Topology/VoltageLevels/breaker_and_a_half.py:114-133 | the k-th connection bus is named "{name}_bay_conn_k": diameter j serves bays 2j and 2j + 1 |
| BreakerAndAHalf.BreakerAndAHalfLines | src/VeraGridEngine/Topology/VoltageLevels/breaker_and_a_half.py:218-224 | segmented, the bar1 segments and then the bar2 segments are chained in diameter order |
| BreakerAndAHalf.AsWrittenNamesCollide | src/VeraGridEngine/Topology/VoltageLevels/breaker_and_a_half.py:120-158 | as written, bus4 and bus5 are both named LineBus4_i, and dis6, dis7 and dis8 are all named Dis6_i |
| BreakerAndAHalf.BusNamesDistinct | src/VeraGridEngine/Topology/VoltageLevels/breaker_and_a_half.py:120-124 | with the corrected names bus4 and bus5 differ |
| BreakerAndAHalf.SwitchNamesDistinct | src/VeraGridEngine/Topology/VoltageLevels/breaker_and_a_half.py:154-158 | with the corrected names Dis6, Dis7 and Dis8 differ from one another |
| BreakerAndAHalf.CreateBreakerAndAHalfWithDisconnectors | src/VeraGridEngine/Topology/VoltageLevels/breaker_and_a_half.py:229-362 | create_breaker_and_a_half_with_disconnectors adds exactly its layout |
| BreakerAndAHalf.BreakerAndAHalfDisCounts | src/VeraGridEngine/Topology/VoltageLevels/breaker_and_a_half.py:284-349 | two bars and two buses per diameter, or four per diameter; three breakers per diameter; both buses are connection buses |
| BreakerAndAHalf.BreakerAndAHalfDisSwitches | src/VeraGridEngine/Topology/VoltageLevels/breaker_and_a_half.py:329-334 | diameter j chains bar1, SW1, conn1, SW2, conn2, SW3, bar2 |
| BreakerAndAHalf.BreakerAndAHalfDisConn | src/VeraGridEngine/Topology/VoltageLevels/breaker_and_a_half.py:348-349 | both buses of diameter j are returned, in order, at positions 2j and 2j + 1 |
| BreakerAndAHalf.BreakerAndAHalfDisLines | src/VeraGridEngine/Topology/VoltageLevels/breaker_and_a_half.py:354-360 | segmented, the two bars' segments are chained in diameter order |
| Ring.PositionNames | src/VeraGridEngine/Topology/VoltageLevels/ring.py:65-75 | a plain position names three buses "{name}_position_n", "{name}_cb_n.1", "{name}_cb_n.2"; with disconnectors only the first |
| Ring.AddPosition | src/VeraGridEngine/Topology/VoltageLevels/ring.py:52-117 | one plain position: its link switches, then its three buses, its breaker and its disconnector |
| Ring.AddOwn | src/VeraGridEngine/Topology/VoltageLevels/ring.py:100-113 | a plain position's buses get consecutive fresh ids; CB_n joins bus2 and bus3, dis_n.1 bus1 and bus2 |
| Ring.AddDisPosition | src/VeraGridEngine/Topology/VoltageLevels/ring.py:163-193 | one position of the ring with disconnectors: its breakers, then its bus |
| Ring.AddAnyPosition | src/VeraGridEngine/Topology/VoltageLevels/ring.py:52-117 | one iteration of either loop adds exactly that position, returning its first and last bus |
| Ring.CreateRing | src/VeraGridEngine/Topology/VoltageLevels/ring.py:13-122 | create_ring and create_ring_with_disconnectors add the positions in order and return each position's connection bus |
| Ring.JoinAllPrefix | src/VeraGridEngine/Topology/VoltageLevels/ring.py:52-117 | the positions laid down so far are a prefix of the ring's buses and switches |
| Ring.RingStep | src/VeraGridEngine/Topology/VoltageLevels/ring.py:52-117 | one more position appends its part to the ring so far |
| Ring.RingBusCount | src/VeraGridEngine/Topology/VoltageLevels/ring.py:46-117 | max(n_bays, 3) positions of three buses each (one with disconnectors) |
| Ring.RingSwitchCount | src/VeraGridEngine/Topology/VoltageLevels/ring.py:77-113 | three switches per position (one with disconnectors) |
| Ring.RingConn | src/VeraGridEngine/Topology/VoltageLevels/ring.py:115 | the connection buses are the positions' first buses |
| Ring.RingSwitchAt | src/VeraGridEngine/Topology/VoltageLevels/ring.py:83-113 | position k's switches follow those of the positions before it |
| Ring.RingBusAt | src/VeraGridEngine/Topology/VoltageLevels/ring.py:100-110 | bus q of position k has the next fresh id and the position's q-th name |
| Ring.RingCounts | src/VeraGridEngine/Topology/VoltageLevels/ring.py:46 | max(n_bays, 3) positions: three buses and three switches each, or one of each with disconnectors; one connection bus per position; no lines |
| Ring.LinkAt | src/VeraGridEngine/Topology/VoltageLevels/ring.py:91-98 | every position after the first is linked from the previous position's last bus |
| Ring.LinkSwitches | src/VeraGridEngine/Topology/VoltageLevels/ring.py:85-98 | a later position's last link comes from the previous one; the last position's first switch goes back to the first bus |
| Ring.CloseAt | src/VeraGridEngine/Topology/VoltageLevels/ring.py:85-89 | the last position is linked back to the first |
| Ring.RingClosed | src/VeraGridEngine/Topology/VoltageLevels/ring.py:52-117 | the ring is closed: from every position some switch leads to the next, and from the last back to the first |
| Ring.RingPositionSwitches | src/VeraGridEngine/Topology/VoltageLevels/ring.py:77-113 | after its links, position k adds CB_k from bus2 to bus3 and then dis_k.1 from bus1 to bus2 |
| Ring.OwnSwitches | src/VeraGridEngine/Topology/VoltageLevels/ring.py:77-81 | a plain position's own breaker and disconnector follow its links |
| Ring.RingDisNamesRepeat | src/VeraGridEngine/Topology/VoltageLevels/ring.py:179-185 | with disconnectors, the breaker into the second-to-last position and the one into the last are both named CB_{np - 2} |
| Rewiring.BranchesAt | src/VeraGridEngine/Topology/VoltageLevels/common_functions.py:45 | the branches attached to the bus, in list order, each touching it |
| Rewiring.InjectionsAt | src/VeraGridEngine/Topology/VoltageLevels/common_functions.py:125 | the injections at the bus, in list order, each on it |
| Rewiring.BranchesAtHas | src/VeraGridEngine/Topology/VoltageLevels/common_functions.py:45 | no branch touching the bus is missed |
| Rewiring.InjectionsAtHas | src/VeraGridEngine/Topology/VoltageLevels/common_functions.py:125 | no injection at the bus is missed |
| Rewiring.RedirectLeaves | src/VeraGridEngine/Topology/VoltageLevels/common_functions.py:65-69 | only the from side moves when both ends are on the bus: afterwards a branch still touches the bus exactly when both its ends did |
| Rewiring.RewireBranches | src/VeraGridEngine/Topology/VoltageLevels/common_functions.py:321-328 | after the first j associated branches are redirected, the list keeps its length |
| Rewiring.RewireInjections | src/VeraGridEngine/Topology/VoltageLevels/common_functions.py:330-332 | after the first j associated injections are moved, the list keeps its length |
| Rewiring.RewireBranchesAt | src/VeraGridEngine/Topology/VoltageLevels/common_functions.py:321-328 | the q-th associated branch is redirected to the q-th target; every other branch is left alone |
| Rewiring.RewireBranchesAppend | src/VeraGridEngine/Topology/VoltageLevels/common_functions.py:92-104 | lines appended after the associated branches are left alone |
| Rewiring.RewireInjectionsAt | src/VeraGridEngine/Topology/VoltageLevels/common_functions.py:330-332 | the q-th associated injection moves to the q-th target; every other injection is left alone |
| Rewiring.MoveBranches | src/VeraGridEngine/Topology/VoltageLevels/common_functions.py:50-69 | every branch at the bus is redirected, the q-th onto the q-th new bus; every other branch and the appended lines are unchanged |
| Rewiring.MoveBranchesLeaves | src/VeraGridEngine/Topology/VoltageLevels/common_functions.py:65-69 | with targets other than the bus, a moved branch still touches the bus exactly when both its ends were there |
| Rewiring.MoveInjections | src/VeraGridEngine/Topology/VoltageLevels/common_functions.py:330-332 | every injection at the bus sits on its target afterwards, the others are unchanged, and none is left on the bus |
| Rewiring.RedirectBranches | src/VeraGridEngine/Topology/VoltageLevels/common_functions.py:320-328 | the loop over the associated branches redirects the j-th to the j-th target |
| Rewiring.RedirectInjections | src/VeraGridEngine/Topology/VoltageLevels/common_functions.py:330-332 | the loop over the associated injections moves the j-th to its target, continuing the counter j |
| ConnectivityGrid.ConnNames | src/VeraGridEngine/Topology/VoltageLevels/common_functions.py:52 | one name "{busbar}_conn_idx" per device |
| ConnectivityGrid.Ids | src/VeraGridEngine/Topology/VoltageLevels/common_functions.py:50-85 | consecutive ids for the new buses |
| ConnectivityGrid.IdsAppend | src/VeraGridEngine/Topology/VoltageLevels/common_functions.py:50-85 | the injections' buses follow the branches' |
| ConnectivityGrid.BackboneEnds | src/VeraGridEngine/Topology/VoltageLevels/common_functions.py:94-101 | backbone line i joins new bus i and new bus i + 1 |
| ConnectivityGrid.ConnBusesStep | src/VeraGridEngine/Topology/VoltageLevels/common_functions.py:50-62 | one more device adds one more connection bus name |
| ConnectivityGrid.ConnectBranches | src/VeraGridEngine/Topology/VoltageLevels/common_functions.py:50-71 | one new connectivity bus per associated branch, which is redirected onto it |
| ConnectivityGrid.ConnectInjections | src/VeraGridEngine/Topology/VoltageLevels/common_functions.py:73-90 | one new connectivity bus per associated injection, which is moved onto it |
| ConnectivityGrid.AddBackbone | src/VeraGridEngine/Topology/VoltageLevels/common_functions.py:93-101 | line i ties new bus i to new bus i + 1 and the lines are returned |
| ConnectivityGrid.TransformBusToConnectivityGrid | src/VeraGridEngine/Topology/VoltageLevels/common_functions.py:34-106 | the grid becomes the split grid; returns the new buses' ids and the backbone lines |
| ConnectivityGrid.ConnGridBranchesIs | src/VeraGridEngine/Topology/VoltageLevels/common_functions.py:50-101 | the associated branches are moved in order onto the first new buses, then the backbone over all new buses is appended |
| ConnectivityGrid.ConnGridInjectionsIs | src/VeraGridEngine/Topology/VoltageLevels/common_functions.py:73-88 | the associated injections are moved in order onto the new buses after the branches' |
| ConnectivityGrid.ConnGridBusesIs | src/VeraGridEngine/Topology/VoltageLevels/common_functions.py:50-104 | the new buses for the branches, then for the injections, are added and the busbar is deleted; switches, substations and levels unchanged |
| ConnectivityGrid.SplitLinesMoved | src/VeraGridEngine/Topology/VoltageLevels/common_functions.py:64-69 | the busbar side of associated branch q moves to new bus q |
| ConnectivityGrid.SplitLinesKept | src/VeraGridEngine/Topology/VoltageLevels/common_functions.py:50-101 | branches not at the busbar are kept, and one line fewer than the new buses is added |
| ConnectivityGrid.SplitLinesBackbone | src/VeraGridEngine/Topology/VoltageLevels/common_functions.py:94-101 | the branch list ends with the backbone |
| ConnectivityGrid.SplitLinesTouch | src/VeraGridEngine/Topology/VoltageLevels/common_functions.py:64-104 | after the split a branch still refers to the deleted busbar exactly when both its ends were on it; no backbone line does |
| ConnectivityGrid.SplitLoads | src/VeraGridEngine/Topology/VoltageLevels/common_functions.py:73-88 | every injection at the busbar sits on its new bus and none is left on the busbar |
| ConnectivityGrid.SplitBusesAdded | src/VeraGridEngine/Topology/VoltageLevels/common_functions.py:50-85 | the new buses for the branches, then for the injections, both numbered from _conn_0 |
| ConnectivityGrid.SplitBusesKept | src/VeraGridEngine/Topology/VoltageLevels/common_functions.py:104 | the busbar is gone, every other old bus stays, and the rest are new connectivity buses |
| ConnectivityGrid.ConnNamesRepeat | src/VeraGridEngine/Topology/VoltageLevels/common_functions.py:52-75 | the injections' buses are numbered from 0 again, so a split with both branches and injections has two buses named {busbar}_conn_0 |
| VoltageLevels.LayoutConn | src/VeraGridEngine/Topology/VoltageLevels/common_functions.py:128-313 | each bay iteration returns one connection bus, except a breaker-and-a-half diameter, which returns two |
| VoltageLevels.BuildConn | src/VeraGridEngine/Topology/VoltageLevels/common_functions.py:128-313 | a build returns one connection bus per bay (two per diameter), all freshly created |
| VoltageLevels.LevelConnCount | src/VeraGridEngine/Topology/VoltageLevels/common_functions.py:128-313 | every builder returns at least n_bays connection buses, so the rewiring loops never run out |
| VoltageLevels.CreateByLayout | src/VeraGridEngine/Topology/VoltageLevels/common_functions.py:130-313 | the fixed-layout builders as written, chosen by vl_type and then by add_disconnectors: the level added is the layout's build at the next free ids (breaker-and-a-half without disconnectors reuses the LineBus4_ and Dis6_ names), and a valid grid stays valid |
| VoltageLevels.CreateWithDisconnectors | src/VeraGridEngine/Topology/VoltageLevels/common_functions.py:132-292 | the add_disconnectors branch of each fixed-layout type |
| VoltageLevels.CreateWithBreakers | src/VeraGridEngine/Topology/VoltageLevels/common_functions.py:144-313 | the other branch of each fixed-layout type; breaker-and-a-half runs create_breaker_and_a_half as written, with the LineBus4_/Dis6_ names repeated |
| VoltageLevels.CreateLevel | src/VeraGridEngine/Topology/VoltageLevels/common_functions.py:130-317 | the dispatch runs the chosen builder and returns its connection buses (the builders as written), or nothing (and changes nothing) for DoubleBarWithBypass, DoubleBarDuplex and unknown types; bar_by_segments reaches only SingleBar |
| VoltageLevels.CreateOther | src/VeraGridEngine/Topology/VoltageLevels/common_functions.py:130-317 | the splitter and ring branches of the dispatch run their builder as written (never segmented, so the splitter with disconnectors adds CB_bars twice); DoubleBarWithBypass, DoubleBarDuplex and unknown types return nothing and change nothing |
| VoltageLevels.Rewire | src/VeraGridEngine/Topology/VoltageLevels/common_functions.py:319-335 | the branches, then the injections, are moved onto the connection buses in order, then the bus is deleted |
| VoltageLevels.TransformBusIntoVoltageLevel | src/VeraGridEngine/Topology/VoltageLevels/common_functions.py:109-337 | the grid becomes the transformed grid specification, the level built by the builders as written |
| VoltageLevels.PlaceBranches | src/VeraGridEngine/Topology/VoltageLevels/common_functions.py:321-328 | associated branch q runs from or to connection bus q, other branches are unchanged, the level's lines are appended, and a branch refers to the deleted bus only if both its ends were on it |
| VoltageLevels.PlaceInjections | src/VeraGridEngine/Topology/VoltageLevels/common_functions.py:330-332 | the associated injections move onto the connection buses after the branches', the others stay, and none is left on the deleted bus |
| VoltageLevels.PlaceBuses | src/VeraGridEngine/Topology/VoltageLevels/common_functions.py:130-335 | the bus is gone; the level's buses, switches and name are in; nothing else is added or removed |
| VoltageLevels.TransformedIsPlace | src/VeraGridEngine/Topology/VoltageLevels/common_functions.py:128-337 | a type without a builder changes nothing; any other places a level with enough fresh connection buses |
| VoltageLevels.TransformedIsSettle | src/VeraGridEngine/Topology/VoltageLevels/common_functions.py:128-337 | turning a bus into a level is settling the level the dispatch builds with the builders as written, which fits the bus's devices |
| Substation.Supported | src/VeraGridEngine/Topology/VoltageLevels/common_functions.py:369-570 | the templates that have a builder, in order |
| Substation.CreateSubstation | src/VeraGridEngine/Topology/VoltageLevels/common_functions.py:340-572 | adds the substation, then for each template in order the level named "{se}-@{template} @{voltage} kV VL" when its type has a builder (the builders as written); returns the names of the levels added |
| Substation.LevelNamesSupported | src/VeraGridEngine/Topology/VoltageLevels/common_functions.py:365-572 | one returned level per template with a builder, in template order |
| Substation.TemplateLevelSome | src/VeraGridEngine/Topology/VoltageLevels/common_functions.py:479-570 | a template adds a level exactly when its type has a builder |
| Substation.StackedSupported | src/VeraGridEngine/Topology/VoltageLevels/common_functions.py:479-570 | templates without a builder leave the grid unchanged |
| Substation.StackedLevels | src/VeraGridEngine/Topology/VoltageLevels/common_functions.py:369-567 | the grid's voltage levels grow by exactly the returned names |
| Procedural.Enumerate | src/VeraGridEngine/Topology/Procedural/procedural_grid_creation.py:41 | the index map sends each state to its position, a later duplicate overwriting an earlier one |
| Procedural.EnumerateIndex | src/VeraGridEngine/Topology/Procedural/procedural_grid_creation.py:41 | for distinct states the index map is a bijection between the states and 0 .. ns - 1 |
| Procedural.StatesIndexed | src/VeraGridEngine/Topology/Procedural/procedural_grid_creation.py:25-41 | the eight states are distinct, so state_index numbers them 0 .. 7 one to one |
| Procedural.Universe | src/VeraGridEngine/Topology/Procedural/procedural_grid_creation.py:59-85 | the buses the walk can reach are the grid's buses and the ends of the listed branches |
| Procedural.Enq | src/VeraGridEngine/Topology/Procedural/procedural_grid_creation.py:81-85 | each branch appends its from end, then its to end, unless already used |
| Procedural.EnqWithin | src/VeraGridEngine/Topology/Procedural/procedural_grid_creation.py:76-85 | the pool only ever holds buses of the reachable set |
| Procedural.StaleAppend | src/VeraGridEngine/Topology/Procedural/procedural_grid_creation.py:81-85 | the stale count of a pool (entries already used, which a pop only re-counts) adds up over concatenation |
| Procedural.StaleFresh | src/VeraGridEngine/Topology/Procedural/procedural_grid_creation.py:73-85 | a pool of buses none of which is used has no stale entry |
| Procedural.WalkMeasure | src/VeraGridEngine/Topology/Procedural/procedural_grid_creation.py:64-85 | each pop either uses a new reachable bus or pops a used one and enqueues nothing new, so the while loop ends |
| Procedural.Scan | src/VeraGridEngine/Topology/Procedural/procedural_grid_creation.py:79-92 | the inner loop counts each branch until one whose device type has no state raises KeyError |
| Procedural.ScanStops | src/VeraGridEngine/Topology/Procedural/procedural_grid_creation.py:88 | after the lookup raises, later branches change nothing |
| Procedural.WalkStep | src/VeraGridEngine/Topology/Procedural/procedural_grid_creation.py:64-92 | one pop of the walk for a bus whose type has a state: its branches are counted and their unused ends enqueued |
| Procedural.ThenThen | src/VeraGridEngine/Topology/Procedural/procedural_grid_creation.py:64-92 | the walk continues where the previous pop left it |
| Procedural.HitsSymmetric | src/VeraGridEngine/Topology/Procedural/procedural_grid_creation.py:91-92 | both [row, col] and [col, row] are incremented, so the counts are symmetric |
| Procedural.HitsAppend | src/VeraGridEngine/Topology/Procedural/procedural_grid_creation.py:91-92 | one more pair adds one at [row, col] and one at [col, row] (two on the diagonal when equal) |
| Procedural.Bump | src/VeraGridEngine/Topology/Procedural/procedural_grid_creation.py:91-92 | the two increments, and no other entry changes |
| Procedural.HitsUniform | src/VeraGridEngine/Topology/Procedural/procedural_grid_creation.py:91-92 | when every pair joins a bus of state r to a branch of state c != r, the count at [r, c] is the number of pairs |
| Procedural.ScanPair | src/VeraGridEngine/Topology/Procedural/procedural_grid_creation.py:79-92 | the inner loop over two branches whose types have states counts both |
| Procedural.EnqPair | src/VeraGridEngine/Topology/Procedural/procedural_grid_creation.py:79-85 | the ends two branches enqueue, in order, skipping used buses |
| Procedural.TriangleLast | src/VeraGridEngine/Topology/Procedural/procedural_grid_creation.py:64-92 | the last pop of the third bus counts its branches again and enqueues nothing |
| Procedural.TriangleC | src/VeraGridEngine/Topology/Procedural/procedural_grid_creation.py:64-92 | the first pop of the third bus enqueues nothing, but it is still queued once more |
| Procedural.TriangleA | src/VeraGridEngine/Topology/Procedural/procedural_grid_creation.py:64-85 | the pop of the first bus counts its two branches and enqueues both other buses |
| Procedural.TriangleB | src/VeraGridEngine/Topology/Procedural/procedural_grid_creation.py:64-92 | the pop of the second bus enqueues the third bus a second time |
| Procedural.TriangleWalk | src/VeraGridEngine/Topology/Procedural/procedural_grid_creation.py:61-92 | from the first bus of a triangle, the walk visits eight (bus, branch) pairs: the third bus, queued twice, counts its two branches twice |
| Procedural.TriangleCountsTwice | src/VeraGridEngine/Topology/Procedural/procedural_grid_creation.py:61-92 | on a triangle of three buses of one state joined by lines of another, train does not raise and counts 8 at [bus, line] for 6 bus-line incidences: buses queued twice are counted twice |
| Procedural.Normalised | src/VeraGridEngine/Topology/Procedural/procedural_grid_creation.py:95-97 | a row with a non-zero sum is divided by it entrywise; length kept |
| Procedural.Counts | src/VeraGridEngine/Topology/Procedural/procedural_grid_creation.py:56-92 | row r of the counts after the visited pairs, one column per state, never negative |
| Procedural.Row | src/VeraGridEngine/Topology/Procedural/procedural_grid_creation.py:96 | row r of the matrix as a sequence |
| Procedural.SumScale | src/VeraGridEngine/Topology/Procedural/procedural_grid_creation.py:96-97 | dividing every entry by k divides the sum by k |
| Procedural.SumBounds | src/VeraGridEngine/Topology/Procedural/procedural_grid_creation.py:96-97 | a sum of non-negative entries bounds each of them |
| Procedural.SumNonNegative | src/VeraGridEngine/Topology/Procedural/procedural_grid_creation.py:96 | a sum of non-negative entries is non-negative |
| Procedural.NormalisedSum | src/VeraGridEngine/Topology/Procedural/procedural_grid_creation.py:95-97 | a normalised row whose sum was not zero sums to one |
| Procedural.NormalisedBounds | src/VeraGridEngine/Topology/Procedural/procedural_grid_creation.py:95-97 | a normalised row of counts holds probabilities between 0 and 1 |
| Procedural.Tally | src/VeraGridEngine/Topology/Procedural/procedural_grid_creation.py:91-92 | the matrix goes from the counts of the pairs so far to the counts with one more pair |
| Procedural.ProceduralGrid.constructor | src/VeraGridEngine/Topology/Procedural/procedural_grid_creation.py:23-44 | eight states, their index map, and an ns × ns zero matrix |
| Procedural.ProceduralGrid.CountBranches | src/VeraGridEngine/Topology/Procedural/procedural_grid_creation.py:79-92 | the inner loop counts each branch into the matrix and enqueues its unused ends, until a branch type has no state |
| Procedural.ProceduralGrid.Pop | src/VeraGridEngine/Topology/Procedural/procedural_grid_creation.py:64-92 | one turn of the while loop: pop the first bus, look up its row (KeyError when its type has no state), mark it used, count its branches (a bus without branches has none) |
| Procedural.ProceduralGrid.Traverse | src/VeraGridEngine/Topology/Procedural/procedural_grid_creation.py:61-92 | the while loop from buses[0]: raises KeyError exactly when the walk specification does, and the matrix holds the counts of the visited pairs |
| Procedural.ProceduralGrid.Count | src/VeraGridEngine/Topology/Procedural/procedural_grid_creation.py:53-92 | IndexError on a grid with no bus; otherwise a fresh zero matrix filled with the walk's counts, or KeyError |
| Procedural.ProceduralGrid.Normalise | src/VeraGridEngine/Topology/Procedural/procedural_grid_creation.py:95-97 | each row with a non-zero sum is divided by its sum, all rows at once from the old matrix |
| Procedural.ProceduralGrid.Train | src/VeraGridEngine/Topology/Procedural/procedural_grid_creation.py:46-97 | as written, train never succeeds: IndexError, KeyError, or TypeError from iterating an int, and the matrix keeps the raw counts |
| Procedural.ProceduralGrid.TrainNormalised | src/VeraGridEngine/Topology/Procedural/procedural_grid_creation.py:46-97 | with range(len(states)), a walk that does not raise leaves each row of counts normalised |

## Left out

- Floating-point rounding: floats are modelled as exact reals, and complex magnitudes are compared through their squared modulus, which orders them the same way.
- Procedural.Normalised: a row whose sum is zero is left at zero, where numpy's 0/0 would give NaN; reals have no NaN.
- The symbolic expression layer (`Expr`, derivatives, substitution, compiled equations, the `LagVar`/`DiffVar` registries): derivatives are opaque tokens, of which the model only knows whether they are the constant 0. This leaves out the lags `_get_jacobian` registers while it differentiates (src/VeraGridEngine/Utils/MultiLinear/diff_blocksolver.py:393-410, reached from the Jacobian builds at :295-309): each new `LagVar` there gets the next slot in `uid2idx_vars` and `uid2idx_lag` and is appended to `_lag_vars`, after the indices the model computes.
- Numerical integration (`_simulate_implicit_euler`, `compute_dx`, `build_initial_lag_variables`): a Newton loop with a sparse solver and float tolerances.
- Geometry in the voltage-level builders: x/y positions, bar widths, the ring's sines and cosines, and the offsets `create_substation` threads from one level to the next. The builders are modelled by connectivity, names, counts and order.
- Random durations in `compose_states` are supplied as a sequence of draws; when the sequence runs out, the model returns None rather than inventing a value.
- `reliability_simulation` and `reliability_grid_simulation` (parallel Monte-Carlo loops calling an external dispatch and OPF), and the reliability driver (island splitting over a numerical circuit).
- numba's `prange` loops are modelled as sequential loops. Out-of-range indices, which numba does not check, are excluded by preconditions; numba's `assert` is modelled as `AssertionError`. A float division by zero in njit code is modelled as `ZeroDivisionError`, numba's default error model.
- `ward_standard_reduction` (sparse complex factorisation), `ptdf_reduction` and `ptdf_reduction_with_islands` (device copying over an external circuit).
- The contingency drivers' run methods and `linear_contingency_analysis`, which drive external linear-analysis and report objects.
- `MultiCircuit` (multi_circuit.py) is not part of this model. `Grid.MultiCircuit` is a stand-in holding the substations, voltage levels, buses, switches, lines and injections the builders touch, with only the effects the builders use (add, delete a bus, set a device's bus). `get_bus_devices` is modelled by `Rewiring.BranchesAt` and `Rewiring.InjectionsAt`.
- The `VoltageLevel` and `Substation` objects are reduced to their names, and bus voltages (`Vnom`), countries and device parameters are not kept.
- `DynamicModelHost`'s diagram property, `to_dict` and `parse`, and the graphical fields of a diagram node beyond the ones written to and read from its dict.
- Results, plotting, option holders, GUI and I/O code.
- DiffBlocks.Block2DiffBlock: the children of a block are held as values (`BlockVal`), so one child `Block` object listed twice, or under two parents, cannot be expressed. In Python, `from_block` copies the child's `__dict__` (src/VeraGridEngine/Utils/MultiLinear/diff_blocksolver.py:60), so the copy shares the child's algebraic lists. The loop of src/VeraGridEngine/Utils/MultiLinear/to_diffblock.py:32-33 then converts the original child once per listing. Each conversion appends that child's rewritten state equations and variables to the same shared lists. For `children = [C, C]`, both DiffBlock copies of C end up with C's rewrites twice, while the model gives each copy one. The same holds for `DiffBlocks.ConvertChildren`, the loop itself. The model covers trees in which every child object appears once.
- DynamicModel.PyIntOf: strings are read in base 10 with ASCII digits only; Python's `int()` also accepts the decimal digits of other scripts (Unicode category Nd), which the model rejects with ValueError.
- DynamicModel.ParseEntry: a uid key written with non-ASCII decimal digits is rejected, where Python reads it (the `PyIntOf` gap above).
- DynamicModel.ParseNodesVal: inherits the same non-ASCII digit gap through `ParseEntry`, and so does `DynamicModel.BlockDiagram.ParseNodes`.
- DynamicModel.BlockDiagram.AddNode: the child diagram is stored in the node by value. Python keeps a reference to the `BlockDiagram` object (src/VeraGridEngine/Devices/Dynamic/dynamic_model_host.py:26, 103), so later changes to the child show up in the parent's `get_node_dict` output (:39-42); in the model they do not.

## Findings

| source | as written | input that shows it | evidently intended | confidence | as-written member | corrected member |
|---|---|---|---|---|---|---|
| src/VeraGridEngine/Utils/MultiLinear/diff_blocksolver.py:240-248 | the lag counter starts at len(uid2idx_vars), the number of distinct state and algebraic uids | state uids [7, 7]: the lag variable gets slot 1, the slot of state 7 | lag slots start after every state and algebraic slot (n_state + n_alg) | not executed | DaeIndex.AsWrittenLagSlotCollides | DaeIndex.VarSlotsDisjoint |
| src/VeraGridEngine/Devices/Dynamic/dynamic_model_host.py:35,152 | get_node_dict writes the key 'state_uots' and parse_nodes reads 'state_outs' | any diagram with one node: parse_nodes(get_node_data_dict()) raises KeyError('state_outs') | both use 'state_outs', so the node dict round-trips | not executed | DynamicModel.AsWrittenNodesFail | DynamicModel.NodesRoundTrip |
| src/VeraGridEngine/Topology/VoltageLevels/single_bar.py:601-641 | x_offset and y_offset are assigned only in the unsegmented branches | create_single_bar_with_splitter with bar_by_segments=True and n_bays=1 raises UnboundLocalError | the segmented splitter builds both bars, one segment per bay | not executed | Splitter.SplitterAsWrittenRaises | Splitter.CreateSegmentedSplitter |
| src/VeraGridEngine/Topology/VoltageLevels/single_bar.py:752-790 | CB_bars is added before the bay loop and again after it when unsegmented | create_single_bar_with_splitter_with_disconnectors with bar_by_segments=False adds two CB_bars switches between the bars | one coupling breaker between the bars | not executed | Splitter.SplitterDisCouplers | Splitter.CreateSplitterWithOneCoupler |
| src/VeraGridEngine/Topology/VoltageLevels/double_bar.py:429-541 | when segmented, transfer_bar stays None and the bar_t segments go only to the chained list | create_double_bar_with_transference_bar with bar_by_segments=True and n_bays=1: Dis4_0 and Dis_coupling have no bus at their transfer-bar end | each bay's Dis4 goes to its own bar_t segment | not executed | DoubleBar.TransferAsWrittenUnset | DoubleBar.CreateDoubleBarWithTransferenceBar |
| src/VeraGridEngine/Topology/VoltageLevels/double_bar.py:639-729 | the same in the variant with disconnectors | create_double_bar_with_transference_bar_with_disconnectors with bar_by_segments=True and n_bays=1: Dis3_0 and the coupling breaker have no transfer-bar bus | each bay's Dis3 goes to its own bar_t segment | not executed | DoubleBar.TransferDisAsWrittenUnset | DoubleBar.CreateDoubleBarWithTransferenceBarWithDisconnectors |
| src/VeraGridEngine/Topology/VoltageLevels/breaker_and_a_half.py:120-158 | bus5 is named LineBus4_{i}, and dis7 and dis8 are named Dis6_{i} | create_breaker_and_a_half with n_bays=1: two buses named LineBus4_0, three switches named Dis6_0 | LineBus5_{i}, Dis7_{i} and Dis8_{i} | not executed | BreakerAndAHalf.AsWrittenNamesCollide | BreakerAndAHalf.SwitchNamesDistinct |
| src/VeraGridEngine/Topology/Procedural/procedural_grid_creation.py:95 | for i in len(self.states) iterates an int | any grid whose walk does not raise first: train raises TypeError | for i in range(len(self.states)), leaving each row normalised | not executed | Procedural.ProceduralGrid.Train | Procedural.ProceduralGrid.TrainNormalised |
