# BEEMs in Dafny

BEEMs fits the couplings of a quantum spin model to a measured
magnetisation curve. It proposes coupling sets by Bayesian optimisation.
For each proposal it runs the exact-diagonalisation solver HPhi at every
target field, turns the solver output into magnetisations, and scores the
curve against the target. A cache file stores solver results so that a
parameter point is never computed twice.

This project models the deterministic core of that loop, one module per source file:

- `Cache` (`src/beems/BEEMs.py`, `SearchHDF5`/`WriteHDF5`): the result cache as a class over a sequence of parameter groups. It has tolerance search, group creation, and the field append that grows every series by one entry.
- `Grid` (`BEEMs.py`, `_preparation_data`): the Cartesian-product candidate grid and the text of `param.csv`.
- `SolverHPhiStdGC` (`src/beems/solver/SolverHPhiStdGC.py`): reading `stan.in`, the cache hit/miss step of one evaluation, and `calcvalues`, which collects `all_mag.csv`.
- `Diff` (`src/beems/solver/diff.py`): reading the row number from `info`, writing the score into `param.csv`, and the score.
- `BOSingle` (`src/beems/BO_single.py`): splitting `param.csv` into scored and unscored rows, the choice between random and Bayesian proposals, and the `info` and parameter dict of each probe.
- `Job` (`src/beems/job.py`): the best-delta row, the number of spins, restart and iteration numbering, `best.csv`, the cache consistency check, and the restart decision of `main`.
- `MakeAll` (`src/beems/makeall.py`): the per-field `stan<i>.in` files and reading a magnetisation file.
- `HPhiIO` (`src/beems/hphi_io.py`): the ordered input dictionary as a class (`HPhi`), the input file, energy parsing, the Sz-sector sweep and the magnetisation choice.
- `FuncKitaev` (`src/beems/solver/func_kitaev.py`): expanding eight Kitaev parameters into 63 couplings, rewriting `stan.in`, `get_h`, `get_site_number` and the term structure of `trans.def`.
- `AftMag` (`src/beems/solver/Aft_mag.py`): the magnetisation taken from the energy file, and the spin-component sums of the Kitaev variant.
- `Protocol`: the line-number agreement between the three programs that share `param.csv`. The grid puts row k on line k + 1 after the header. The proposer writes k + 2 into `info`. The scorer edits line row - 1, which is grid row k.

The modules `Wrappers`, `Text`, `OrderedDict`, `Values` and `Reals` hold
shared definitions. `Text` covers Python's `str.split`, `split()`, `strip`,
`int()` on an optional sign and ASCII digits, and `str(int)`. `OrderedDict` models an insertion-ordered `dict`.
`Values` holds TOML values with Python's `==`.

Float arithmetic is exact `real` arithmetic. Python's float formatting and
parsing, `math.sqrt` and the trigonometry are not modelled bit for bit. They appear as the functions of a `Runtime`
record that every operation takes as a parameter (`Values.Runtime`).
Results hold for every such record, or for records with the stated
properties, such as "prints without a newline". Files are passed in and
returned as text or as lines. HPhi's output and the Bayesian proposer's
choices are parameters.

## Model

| member | source | states |
|---|---|---|
| Cache.ParamsCloseExamples | src/beems/BEEMs.py:226-269 | parameters 1e-9 apart are close, 1e-5 apart are not, lists of different lengths never are, and the comparison with eps is strict |
| Cache.IdxColumns | src/beems/BEEMs.py:341-342 | array[:, :4] keeps the first (up to) w columns of every row |
| Cache.ValColumns | src/beems/BEEMs.py:343-344 | array[:, 4:] keeps the columns from w on of every row |
| Cache.LoadGreensFacts | src/beems/BEEMs.py:336-344 | loading succeeds exactly when there are exct files of each kind, and entry i holds the value and index columns of file i |
| Cache.LoadGreensErr | src/beems/BEEMs.py:336-344 | a missing Green's function file stops the loop with its error |
| Cache.ReadGreens | src/beems/BEEMs.py:336-344 | the loop over range(exct) computes LoadGreens |
| Cache.States | src/beems/BEEMs.py:353-358 | state i of the energy file is read from lines 6i+1 and 6i+2 |
| Cache.CollectOk | src/beems/BEEMs.py:353-358 | reading the energies succeeds exactly when every state reads |
| Cache.CollectFacts | src/beems/BEEMs.py:353-358 | E and Sz have one entry per state, each the value read for that state |
| Cache.CollectErr | src/beems/BEEMs.py:353-358 | the first state that fails ends the loop with its error |
| Cache.EnergiesOk | src/beems/BEEMs.py:346-358 | the energies of exct states are read exactly when each state's two lines read |
| Cache.EnergiesFacts | src/beems/BEEMs.py:346-358 | E[i] and Sz[i] are the second tokens of lines 6i+1 and 6i+2 |
| Cache.EnergiesErr | src/beems/BEEMs.py:346-358 | the first state whose line is missing or unparsable decides the error |
| Cache.Squares | src/beems/BEEMs.py:357 | E2[i] is E[i] squared, never negative |
| Cache.ReadEnergies | src/beems/BEEMs.py:346-358 | the loop returns E, E2 = E squared elementwise, and Sz, or the first error |
| Cache.AppendRecordFacts | src/beems/BEEMs.py:362-435 | write_field appends one entry to every list of the group (value, E, E2, Sz, Green's functions, the four info fields with their fixed strings) and keeps the earlier entries; a new group's keys are field_keys; green2 survives only where it was present or the group is new |
| Cache.LastRowFacts | src/beems/BEEMs.py:220-222 | the field index is the last row close to the searched field, or stays as it was when none is |
| Cache.ScanParam | src/beems/BEEMs.py:214-224 | the parameter index is the last group whose parameters are close, -1 when none is; a close group without a field raises |
| Cache.ScanField | src/beems/BEEMs.py:214-224 | a field index is only reported inside a close group, on a row close to the searched field; no group means no field |
| Cache.ScanFarSuffix | src/beems/BEEMs.py:214-224 | groups whose parameters are not close do not change the search result |
| Cache.ScanErr | src/beems/BEEMs.py:214-224 | once the search has failed, later groups do not change that |
| Cache.ScanAfterAppend | src/beems/BEEMs.py:214-224 | after a row close to h is appended to the group found last, the search finds that group and that new row |
| Cache.ScanAfterNewGroup | src/beems/BEEMs.py:214-224 | after a new group with the searched parameters and a row close to h, the search finds the new group and that row |
| Cache.Store.constructor | src/beems/BEEMs.py:167-184 | a store over the file's basic_info and groups, with its parameter and field keys |
| Cache.Store.Search | src/beems/BEEMs.py:190-224 | search returns the (param_idx, field_idx) pair SearchResult defines, exiting on a length mismatch |
| Cache.Store.WriteParam | src/beems/BEEMs.py:300-315 | a negative index creates group len(groups) holding the first len(param_keys) values and no field; otherwise nothing changes and the index is kept |
| Cache.Store.WriteField | src/beems/BEEMs.py:317-455 | write_field replaces the group's field by FieldUpdate, or leaves the store unchanged on error; basic_info never changes |
| Grid.Linspace | src/beems/BEEMs.py:133 | np.linspace(a, b, n) has n points, starts at a, ends at b, and is evenly spaced by (b - a)/(n - 1) |
| Grid.Prefixed | src/beems/BEEMs.py:135 | itertools.product puts each value of the first axis in front of every combination of the others |
| Grid.ProductWithAt | src/beems/BEEMs.py:135 | row i * |rest| + r of the product of an axis with the rest is its value i followed by combination r |
| Grid.ProductWithSize | src/beems/BEEMs.py:135 | the product of an axis with the rest has |xs| * |rest| rows |
| Grid.ProductSize | src/beems/BEEMs.py:135 | the grid has as many rows as the product of the axis lengths |
| Grid.ProductAt | src/beems/BEEMs.py:135 | the last parameter varies fastest: row i * Size(rest) + r is value i of the first axis followed by row r of the rest |
| Grid.ProductWithRow | src/beems/BEEMs.py:135 | every row starts with a value of the first axis and continues with a combination of the rest |
| Grid.ProductRows | src/beems/BEEMs.py:135 | every row has one value per parameter, each taken from that parameter's axis |
| Grid.HeaderBuilt | src/beems/BEEMs.py:140-142 | the header string built in the loop starts with "delta," and ends with a comma |
| Grid.HeaderCells | src/beems/BEEMs.py:140-143 | the header columns are delta followed by <name>_cand for each parameter |
| Grid.HeaderLineStep | src/beems/BEEMs.py:141-143 | one more parameter appends ",<name>_cand" to the header line |
| Grid.HeaderCellsStep | src/beems/BEEMs.py:141-142 | one more parameter appends its column |
| Grid.HeaderSplit | src/beems/BEEMs.py:140-143 | with comma-free names, splitting the header line on commas gives back the column names |
| Grid.RowLines | src/beems/BEEMs.py:145-148 | line k of the rows is row k of the grid, each value written ",%f" |
| Grid.RowDeltaEmpty | src/beems/BEEMs.py:146-147 | every grid row has an empty delta cell |
| Grid.RowStartsWithComma | src/beems/BEEMs.py:146-147 | a non-empty row starts with the comma of its first value |
| Grid.RowCellsNoNewline | src/beems/BEEMs.py:146-147 | a row is a single line when its values print without newlines |
| Grid.HeaderNoNewline | src/beems/BEEMs.py:140-142 | the header is a single line when the names have no newlines |
| Grid.GridLines | src/beems/BEEMs.py:138-149 | param.csv splits into the header, one line per grid row and a final empty piece |
| Grid.AxesErr | src/beems/BEEMs.py:132-133 | the first parameter whose range entry is missing or malformed stops the preparation with its error |
| Grid.BuildAxes | src/beems/BEEMs.py:131-133 | the loop over params builds one linspace per parameter, as Axes defines |
| Grid.WriteHeader | src/beems/BEEMs.py:140-143 | the loop writes the header without its trailing comma, then a newline |
| Grid.WriteRows | src/beems/BEEMs.py:145-148 | the nested loops write one line per grid row |
| Grid.PreparationData | src/beems/BEEMs.py:117-149 | _preparation_data writes the text PreparationText defines, or fails on the first malformed parameter range |
| SolverHPhiStdGC.AssignedKeys | src/beems/solver/SolverHPhiStdGC.py:19-23 | a line assigns a key iff it contains "=" and its text before the first "=" contains J or H, and the key is that text stripped |
| SolverHPhiStdGC.LastIndexOf | src/beems/solver/SolverHPhiStdGC.py:23 | the position found holds the key |
| SolverHPhiStdGC.LastIndexOfFacts | src/beems/solver/SolverHPhiStdGC.py:23 | nothing is found iff the key is absent, and no later position holds it |
| SolverHPhiStdGC.LastAssignedStep | src/beems/solver/SolverHPhiStdGC.py:19-23 | a further line either assigns the key and decides its value or leaves it as before |
| SolverHPhiStdGC.ParamLinesStepGet | src/beems/solver/SolverHPhiStdGC.py:19-23 | one pass of the loop keeps the dict free of duplicates and sets only the key the line assigns |
| SolverHPhiStdGC.ParamLinesGet | src/beems/solver/SolverHPhiStdGC.py:14-24 | when the file parses, each key holds the value of the last line that assigns it, and keys that no line assigns are absent |
| SolverHPhiStdGC.ReadParamFile | src/beems/solver/SolverHPhiStdGC.py:14-24 | the loop over the lines of stan.in computes _read_param_file |
| SolverHPhiStdGC.ParamLinesErr | src/beems/solver/SolverHPhiStdGC.py:23 | the first assignment whose value float() rejects decides the error of the whole read |
| SolverHPhiStdGC.Lookup | src/beems/solver/SolverHPhiStdGC.py:31-32 | the values of the listed keys in order, or a KeyError when one is missing |
| SolverHPhiStdGC.HitAsWrittenNeverWrites | src/beems/solver/SolverHPhiStdGC.py:57-64 | as written, a cache hit never writes resul_mag.dat: it fails on the unbound name fd as soon as Sz is read |
| SolverHPhiStdGC.HitResultSucceeds | src/beems/solver/SolverHPhiStdGC.py:57-64 | the intended hit branch writes the cached Sz divided by L |
| SolverHPhiStdGC.StoredRowFound | src/beems/solver/SolverHPhiStdGC.py:46-51 | after a miss is stored, searching for the same point finds it, in the group that was used or in the new one |
| SolverHPhiStdGC.StoreMiss | src/beems/solver/SolverHPhiStdGC.py:46-56 | on a miss the new cache is exactly write_field's update (Cache.FieldUpdate) of the row on group index_param, after write_param added a group for a negative index; on failure only that new group remains; the point is then found, and the save message names its group |
| SolverHPhiStdGC.RunHPhi | src/beems/solver/SolverHPhiStdGC.py:26-64 | HPhi runs iff there is no cache or the search finds no field row; a hit leaves the cache unchanged and answers from it; a miss leaves exactly the groups write_param and write_field produce (Cache.FieldUpdate on the found or new group) and stores the point so that it is found afterwards; a bad stan.in is an error |
| SolverHPhiStdGC.CsvLinesFacts | src/beems/solver/SolverHPhiStdGC.py:70-81 | all_mag.csv has one line per field pairing the field with the stripped result of h<i>, computed from the energies when resul_mag.dat is absent |
| SolverHPhiStdGC.CsvLinesErr | src/beems/solver/SolverHPhiStdGC.py:73-80 | the first directory that is missing or fails decides the error of calcvalues |
| SolverHPhiStdGC.CalcValues | src/beems/solver/SolverHPhiStdGC.py:70-81 | the loop over the fields writes the lines of all_mag.csv or stops at the first failure |
| Diff.ReadInfo | src/beems/solver/diff.py:23-41 | the row is int() of the first whitespace token of the first line of info; it fails exactly when that line has no token or the token is not an integer |
| Diff.LineIndex | src/beems/solver/diff.py:67 | data[row - 1] addresses line row - 1 for 1 <= row <= n, the last piece for row 0, and counts from the end for negative rows |
| Diff.ChParam | src/beems/solver/diff.py:63-75 | func_chparam raises IndexError exactly when row - 1 is out of Python's index range |
| Diff.ChParamRejected | src/beems/solver/diff.py:67-70 | the row is refused (-1) exactly when the text before its first comma is non-empty |
| Diff.ChParamLines | src/beems/solver/diff.py:63-75 | on a file of whole lines, an unscored row gets "%12.8f  " in front of it and every other line is written back unchanged |
| Diff.ChParamWritten | src/beems/solver/diff.py:71-75 | an accepted edit writes back the first cnt_max pieces, with the addressed one prefixed by the score |
| Diff.ChParamRowZero | src/beems/solver/diff.py:66-75 | row 0 edits the piece after the final newline, which is not written back, so the file is unchanged |
| Diff.ChParamTwice | src/beems/solver/diff.py:67-72 | once a row has been scored (with a score that prints without commas), scoring it again is refused |
| Diff.ScoredAfterPrefix | src/beems/solver/diff.py:68-72 | a line with a comma-free score in front of it counts as scored |
| Diff.ChParamScoredRow | src/beems/solver/diff.py:67-70 | a scored row in range is refused |
| Diff.ChParamRun | src/beems/solver/diff.py:63-75 | the edit and the print loop produce the outcome ChParam defines |
| Diff.SumSquares | src/beems/solver/diff.py:99 | the sum of squared deviations is never negative |
| Diff.SumSquaresZero | src/beems/solver/diff.py:99 | the sum of squares vanishes exactly when every deviation is zero |
| Diff.Deviation | src/beems/solver/diff.py:99 | hphi_mag - target_mag is elementwise on equal lengths and fails when neither side broadcasts |
| Diff.Score | src/beems/solver/diff.py:99 | the score -mean((hphi_mag - target_mag)**2) is never positive |
| Diff.ScoreZero | src/beems/solver/diff.py:99 | on aligned non-empty curves the score is zero exactly when they coincide |
| Diff.DiffMain | src/beems/solver/diff.py:77-102 | main returns the score whether or not param.csv accepted it, after reading the row from info and offering the score to func_chparam |
| Protocol.TokenCellsNoNewline | src/beems/BO_single.py:157-161 | the coordinates written into info hold no newline when the tokens hold none |
| Protocol.InfoRoundTrip | src/beems/BO_single.py:157-161 | func_readinfo reads back exactly the row number index + 2 that the proposer wrote into info |
| Protocol.GridFileLines | src/beems/BEEMs.py:138-149 | param.csv holds the header on line 0 and grid row k on line k + 1 |
| Protocol.GridTextLines | src/beems/BEEMs.py:138-149 | the text of param.csv is its header and row lines, each newline-terminated |
| Protocol.ScoreGridRow | src/beems/solver/diff.py:63-75 | scoring row number k + 2 puts the score in front of grid row k on line k + 1 and leaves the header and every other row unchanged |
| Protocol.ScoreGridRowTwice | src/beems/solver/diff.py:67-70 | once grid row k carries a score, scoring it again is refused |
| Protocol.DiffMainOnGrid | src/beems/solver/diff.py:77-102 | diff.main on the info file written for grid row k and the grid's param.csv writes its score onto line k + 1 |
| BOSingle.RowValues | src/beems/BO_single.py:77 | a row of param.csv has one cell per comma-separated field, an empty field being NaN |
| BOSingle.GenFromText | src/beems/BO_single.py:77-80 | np.genfromtxt succeeds only on a rectangular table of at least two rows and two columns (arr[:, 0] and arr[:, 1:] need both) |
| BOSingle.TestIdxFacts | src/beems/BO_single.py:81-89 | test_actions are, in increasing order, exactly the rows whose delta cell is NaN |
| BOSingle.TrainIdxFacts | src/beems/BO_single.py:80-83 | the training rows are, in increasing order, exactly the rows whose delta cell is filled |
| BOSingle.IdxCount | src/beems/BO_single.py:80-81 | every row is either a training row or a test row |
| BOSingle.IdxFacts | src/beems/BO_single.py:80-89 | both index lists are increasing, partition the rows by the NaN test, and training rows have a value |
| BOSingle.ComplementIsTrain | src/beems/BO_single.py:91-94 | the sorted set difference range(n) - test_actions is the list of training rows |
| BOSingle.LoadData | src/beems/BO_single.py:56-96 | X_all[i] is row i without its delta cell, and X_train[j] and t_train[j] are row actions[j]'s parameters and delta |
| BOSingle.LoadDataPartition | src/beems/BO_single.py:56-96 | load_data returns actions and test_actions that partition the rows, both sorted, with t_train[j] the delta of row actions[j] |
| BOSingle.RowAt | src/beems/BO_single.py:146-147 | X_all[i] for an index in range is that row |
| BOSingle.Tokens | src/beems/BO_single.py:147-149 | the tokens cut out of str(X_all[i]) between the brackets are non-empty and contain no blanks |
| BOSingle.DicParamStep | src/beems/BO_single.py:151-153 | one more parameter name sets that name to float() of its token |
| BOSingle.DicParamKeys | src/beems/BO_single.py:151-153 | dic_param holds each parameter name once and no other key |
| BOSingle.DicParamGet | src/beems/BO_single.py:151-153 | for distinct names, dic_param[name_j] is float(tmp3[j]) |
| BOSingle.DicParamErr | src/beems/BO_single.py:152-153 | the first name without a token raises IndexError, the first token float() rejects raises ValueError |
| BOSingle.DicParamRun | src/beems/BO_single.py:151-153 | the loop over physbo_params_list builds the dict DicParam defines, or its first error |
| BOSingle.GetTomlDic | src/beems/BO_single.py:20-38 | an empty dic_param returns the configuration unchanged; otherwise it fails exactly when there is no hphi_params table |
| BOSingle.GetTomlDicFacts | src/beems/BO_single.py:20-38 | get_toml_dic overrides hphi_params[k] for the keys of dic_param, keeps the other entries of hphi_params and every other section |
| BOSingle.GetTomlDicRun | src/beems/BO_single.py:36-38 | the loop over dic_param.keys() computes GetTomlDic, returning the configuration untouched when there are no keys |
| BOSingle.InfoRun | src/beems/BO_single.py:157-161 | the info file is " <row number> " followed by each token and a blank |
| BOSingle.MakeProbe | src/beems/BO_single.py:145-161 | the probe built for row index keeps that index |
| BOSingle.MakeProbeRun | src/beems/BO_single.py:145-161 | the body of the probe loop computes MakeProbe |
| BOSingle.ChooseBranch | src/beems/BO_single.py:135 | the Bayesian branch runs exactly when len(t_train) > num_random - 1, so with the default of 3 from three scored rows on |
| BOSingle.ProbeAt | src/beems/BO_single.py:145-146 | asking for a probe beyond the proposals physbo returned raises IndexError |
| BOSingle.ProbeResults | src/beems/BO_single.py:145 | the probes are ProbeAt for i in range(num_search_each_probe) |
| BOSingle.ProbeStep | src/beems/BO_single.py:145-161 | an earlier error is kept, and a successful step remembers the probe just made |
| BOSingle.ProbesLast | src/beems/BO_single.py:145-161 | after the loop, dic_param is the last probe's and the configuration is that probe's get_toml_dic of the previous one |
| BOSingle.ProbesPrefix | src/beems/BO_single.py:145-161 | a loop that succeeds succeeded on every prefix |
| BOSingle.ProbesErr | src/beems/BO_single.py:145-161 | the first failing probe ends the loop with its error |
| BOSingle.RunProbes | src/beems/BO_single.py:145-161 | the probe loop computes Probes over the probe results |
| BOSingle.ProbeCount | src/beems/BO_single.py:145 | an integer num_search_each_probe gives that many iterations, none when negative |
| BOSingle.BayesProposal | src/beems/BO_single.py:136-161 | the Bayesian branch reports itself as such |
| BOSingle.RandomProposal | src/beems/BO_single.py:163-184 | the random branch picks one of test_actions, and fails when there is none (randint(0, -1) raises) |
| BOSingle.ReadSettings | src/beems/BO_single.py:119-127 | the settings are read from a `physbo` table, which must exist |
| BOSingle.Propose | src/beems/BO_single.py:135-184 | the branch taken is the one ChooseBranch gives for the number of training rows and num_random |
| BOSingle.ProposeBranch | src/beems/BO_single.py:135-172 | the random branch is taken exactly when len(t_train) <= num_random - 1, and it proposes an unscored row |
| BOSingle.BOMain | src/beems/BO_single.py:99-186 | a run that succeeds read its settings and param.csv |
| BOSingle.BOMainBranch | src/beems/BO_single.py:99-186 | when main samples at random, the row it proposes is in range and unscored |
| BOSingle.DicParamGetLast | src/beems/BO_single.py:151-153 | the last parameter name holds float() of its own token |
| BOSingle.DicParamGetEarlier | src/beems/BO_single.py:151-153 | a later, different name leaves an earlier name's value alone |
| Job.Mul | src/beems/job.py:64 | L * W of two TOML integers is their product |
| Job.Entry | src/beems/job.py:61-64 | a lookup in the hphi_params table succeeds only when that table exists and holds the key, and yields its value |
| Job.GetNumSpin | src/beems/job.py:45-65 | a chain has L spins; any other lattice has L * W; a missing table, key or non-string lattice is an error |
| Job.Column | src/beems/job.py:36-37 | df["delta"] is the column's cell in every row |
| Job.IdxMax | src/beems/job.py:36 | idxmax names a non-NaN row, and finds none only when the whole column is NaN |
| Job.IdxMaxIsMax | src/beems/job.py:36 | idxmax picks the first row holding the largest non-NaN value |
| Job.ColumnIndex | src/beems/job.py:36 | the column named "delta" is found iff it exists |
| Job.GetBestDelta | src/beems/job.py:19-43 | get_best_delta fails iff there is no delta column or it holds only NaN |
| Job.BestDeltaIsMax | src/beems/job.py:36-37 | the best delta is the largest delta in the file and occurs in some row |
| Job.BestParametersGet | src/beems/job.py:39-42 | every non-delta column is reported under its name up to the first "_", with the value of the best row, unless a later column has the same name |
| Job.BestParametersLast | src/beems/job.py:41-42 | the last non-delta column's value is stored under its parameter name |
| Job.BestParametersOther | src/beems/job.py:41-42 | a column leaves every other parameter name alone |
| Job.BestParametersUnique | src/beems/job.py:39-42 | the best-parameter dict has each name once |
| Job.BestParametersRun | src/beems/job.py:38-42 | the loop over the columns builds the best-parameter dict |
| Job.GetBestDeltaRun | src/beems/job.py:19-43 | the loop computes get_best_delta |
| Job.DirNumbers | src/beems/job.py:123-124 | every BO_No directory found has an integer number, or int() fails on the first that has none |
| Job.Max | src/beems/job.py:125 | max(nums) is in the list and bounds it |
| Job.RestartPoint | src/beems/job.py:117-126 | a restart needs the flag and at least one BO_No directory and resumes after the largest number found; otherwise it starts from 0 |
| Job.DirNumberOfName | src/beems/job.py:124 | the number read back from summary/BO_No<n> is n |
| Job.DirNumbersRun | src/beems/job.py:123-124 | the loop reads the directory numbers |
| Job.MaxRun | src/beems/job.py:125 | the loop computes max(nums) |
| Job.RestartPointRun | src/beems/job.py:117-126 | the restart handling as a loop computes the restart point |
| Job.Iterations | src/beems/job.py:136 | iterations are max_num + 1 .. max_itr in order, none when max_itr <= max_num |
| Job.Label | src/beems/job.py:137-139 | iteration i is labelled Random iff i <= num_random |
| Job.DefaultLabels | src/beems/job.py:113-139 | with the default num_random of 3 a fresh run does three random iterations and then Bayesian ones |
| Job.BestLog.constructor | src/beems/job.py:165-166 | best.csv starts with no rows |
| Job.BestLog.Append | src/beems/job.py:165-166 | each iteration appends one row (i, best score) |
| Job.BestTextLines | src/beems/job.py:165-166 | best.csv reads back as one "i,score" line per iteration, in order |
| Job.BestRows | src/beems/job.py:136-166 | the rows written by a run carry the iteration numbers max_num + 1, ... in order |
| Job.RunIterations | src/beems/job.py:136-170 | the main loop labels each iteration and appends its best score to best.csv; a non-numeric num_random fails at the first iteration with nothing written |
| Job.CheckHdf5 | src/beems/job.py:207-236 | the HDF5 check fails iff some non-uuid key is missing from hphi_params; otherwise the error code is 1 exactly when some key's value differs, and the list holds exactly those keys |
| Job.CheckHdf5Run | src/beems/job.py:224-236 | the loop over the basic_info keys computes the check |
| Job.CheckHdf5Err | src/beems/job.py:229 | a KeyError ends the check: later keys do not change it |
| Job.RestartFlag | src/beems/job.py:198 | restart defaults to True; the strings "True" and "False" give the flag |
| Job.Removals | src/beems/job.py:314-319 | exactly the listed directories that exist are deleted |
| Job.DecideMode | src/beems/job.py:298-319 | restart iff the flag is set, the summary directory exists and the first BO directory is not BO_No1; a restart deletes only that BO directory, a new run deletes org, the summary and the BO directory where they exist |
| Values.PyEqFacts | src/beems/job.py:229 | Python's == on the compared values is reflexive and symmetric, and 16 == 16.0 and True == 1 hold while "16" == 16 does not |
| MakeAll.StanFiles | src/beems/makeall.py:87-90 | one stan file per field value |
| MakeAll.SpinGCDefaultsUnique | src/beems/hphi_io.py:250-266 | the SpinGC defaults name each parameter once |
| MakeAll.StanParamsGet | src/beems/makeall.py:75-81 | the stan input holds every hphi_params entry; of the rest, the nine J0 couplings are gone and the other SpinGC defaults stay |
| MakeAll.StanFilesFacts | src/beems/makeall.py:87-90 | file i is stan<i>.in holding the base text, a newline and "H = <field i>" |
| MakeAll.StanFileLines | src/beems/makeall.py:81-90 | each stan<i>.in reads back as the base input lines, an empty line and the H line |
| MakeAll.InputLinesNoNewlines | src/beems/hphi_io.py:83-87 | no input line holds a newline when keys and printed values hold none |
| MakeAll.MagRowsFacts | src/beems/makeall.py:109-120 | a successful read gives one (field, mag) pair per line, each parsed from that line |
| MakeAll.MagRowsErr | src/beems/makeall.py:114-118 | the first line that does not parse decides the error |
| MakeAll.MagRowsStep | src/beems/makeall.py:113-118 | one iteration of func_readmag stores the line's field and magnetization |
| MakeAll.MagRowsErrPrefix | src/beems/makeall.py:113-118 | once a line fails, every longer prefix fails with the same error |
| MakeAll.MagRowOfCells | src/beems/makeall.py:115-117 | a "field,mag" line reads back as its two numbers |
| MakeAll.ReadMagOfLines | src/beems/makeall.py:92-120 | a file of "field,mag" lines reads back as the two columns |
| MakeAll.MagRowsOfRows | src/beems/makeall.py:113-118 | lines that each parse give the columns of their values |
| MakeAll.ReadMag | src/beems/makeall.py:92-120 | the loop over the lines before the last newline computes func_readmag; an empty line gives 0, 0 |
| MakeAll.FirstColumn | src/beems/makeall.py:142 | target_data[:,0] exists iff every row has a first entry, and is that column |
| MakeAll.DefParamsL | src/beems/makeall.py:38-48 | the dry-run input carries L only if the TOML has one, and the model is SpinGC unless the TOML names another |
| MakeAll.OutputStanin | src/beems/makeall.py:50-90 | output_stanin writes the stan files of every field, or fails on a missing path or hphi_params table |
| MakeAll.WriteStanFiles | src/beems/makeall.py:87-90 | the loop writes stan<i>.in for every field in order |
| MakeAll.MakeInputs | src/beems/makeall.py:123-144 | main takes the first column of the target data as the fields and writes their stan files |
| MakeAll.OutputDef | src/beems/makeall.py:24-48 | output_def writes the SpinGC defaults without L overlaid by the whole TOML |
| HPhiIO.InputTextUnlines | src/beems/hphi_io.py:83-87 | the input file is the "key = value" line of every parameter, each newline-terminated, in insertion order |
| HPhiIO.InputTextLines | src/beems/hphi_io.py:83-87 | splitting the input file at newlines gives back one line per parameter, and each line's text before "=" is the key followed by a space |
| HPhiIO.DeleteStep | src/beems/hphi_io.py:232-236 | one pass of delete_input removes the key if present and otherwise reports it as absent |
| HPhiIO.EnergyParsersAgree | src/beems/hphi_io.py:101-124 | when _get_energy_sz_from_hphi succeeds, _get_energy_from_hphi reads the same energies, one per line containing "Energy", and no more values than lines |
| HPhiIO.EnergySzErr | src/beems/hphi_io.py:114-120 | the first line whose float() fails decides the error of the whole read |
| HPhiIO.EnergiesErr | src/beems/hphi_io.py:376-383 | the first line whose float() fails decides the error of the whole energy read |
| HPhiIO.WithSzTwice | src/beems/hphi_io.py:403-404 | setting 2Sz again overrides the previous sector |
| HPhiIO.SectorRuns | src/beems/hphi_io.py:403 | one run per sector sz in range(L // 2 + 1) |
| HPhiIO.ScanFacts | src/beems/hphi_io.py:403-411 | the sector loop completes iff every run yields an energy, and then lists (sz, energy[0]) for sz = 0, 1, ... in order |
| HPhiIO.ScanLeavesSz | src/beems/hphi_io.py:403-404 | after a completed sweep 2Sz holds twice the last sector and every other parameter is as before |
| HPhiIO.ScanStep | src/beems/hphi_io.py:403-409 | one iteration of the sector loop appends (sz, energy) or stops with the run's error, leaving 2Sz = 2 sz |
| HPhiIO.SectorStep | src/beems/hphi_io.py:403-409 | one iteration of get_energy_by_hphi in terms of the sector runs: append on success, the whole call fails with 2Sz left at the failing sector otherwise |
| HPhiIO.ScanErrStays | src/beems/hphi_io.py:403-409 | once a sector fails no later sector changes the outcome or the stored 2Sz |
| HPhiIO.EnergyMag | src/beems/hphi_io.py:359-361 | one enthalpy per (Sz, energy) pair |
| HPhiIO.FirstMin | src/beems/hphi_io.py:362 | list.index(min(...)) is the first position holding the minimum |
| HPhiIO.FirstMinUnique | src/beems/hphi_io.py:362 | the first minimum position is unique |
| HPhiIO.IndexOfMin | src/beems/hphi_io.py:362 | the scan for the minimum returns the first position of the minimum |
| HPhiIO.GetMagOfScan | src/beems/hphi_io.py:344-364 | on the list get_energy_by_hphi returns, get_mag answers one of the sectors that were run |
| HPhiIO.IsCloseAsymmetric | src/beems/hphi_io.py:312 | np.isclose with default tolerances is not symmetric in its arguments |
| HPhiIO.ModifyMag | src/beems/hphi_io.py:295-318 | fails iff there are fewer than two states; for distinct energies it is the lowest state's magnetization; otherwise 0 at zero field or the mean, which lies between the two |
| HPhiIO.HPhi.SpinGC | src/beems/hphi_io.py:250-266 | the SpinGC defaults: chain of 16 sites, CG, all nine couplings 1.0, exct 2, nothing computed |
| HPhiIO.HPhi.Spin | src/beems/hphi_io.py:333-342 | the Spin defaults: chain of 12 sites, CG, J0 1.0, exct 2, 2Sz 0 |
| HPhiIO.HPhi.ChangeInput | src/beems/hphi_io.py:89-99 | every given parameter is set, in order, on top of the existing ones |
| HPhiIO.HPhi.DeleteInput | src/beems/hphi_io.py:222-236 | the listed keys are removed and the missing ones are reported in order |
| HPhiIO.HPhi.MakeInputFile | src/beems/hphi_io.py:83-87 | writes the input text of the current parameters |
| HPhiIO.HPhi.MakeInput | src/beems/hphi_io.py:126-135 | updates the parameters and then writes their input text |
| HPhiIO.HPhi.GetEnergySzFromHPhi | src/beems/hphi_io.py:101-124 | no output file gives None; otherwise the energies and Sz values of the file, or the first parse error |
| HPhiIO.HPhi.GetEnergyFromHPhi | src/beems/hphi_io.py:366-384 | no output file gives the empty list; otherwise the energies of the file |
| HPhiIO.HPhi.GetMag | src/beems/hphi_io.py:344-364 | the Sz of the first state minimising E - Sz H; an empty list is an error |
| HPhiIO.HPhi.RunSector | src/beems/hphi_io.py:404-409 | sets 2Sz = 2 sz, writes the input and takes energy[0] of the run |
| HPhiIO.HPhi.GetEnergyByHPhi | src/beems/hphi_io.py:386-412 | sweeps sz = 0 .. L // 2, stores and returns the (sz, energy) list, and on a failing run leaves energy_list unchanged with 2Sz at that sector; a missing or non-integer L fails before any run |
| FuncKitaev.GetH | src/beems/solver/func_kitaev.py:4-27 | get_h returns float() of the value of the first line whose stripped key is H, as HOf defines |
| FuncKitaev.HOfAfter | src/beems/solver/func_kitaev.py:20-26 | the first line that sets H decides the result, whatever follows it |
| FuncKitaev.HOfNone | src/beems/solver/func_kitaev.py:20-27 | with no H line, H is never bound and get_h fails |
| FuncKitaev.ParamKeysShape | src/beems/solver/func_kitaev.py:48 | the eight parameter keys are short names, none of them L or H |
| FuncKitaev.ConvertLineNoAssign | src/beems/solver/func_kitaev.py:57 | a line without "=" is dropped |
| FuncKitaev.ConvertLineL | src/beems/solver/func_kitaev.py:63 | the L line is dropped |
| FuncKitaev.ConvertLineKeep | src/beems/solver/func_kitaev.py:62-66 | any other assignment is kept, with a newline added when it lacks one |
| FuncKitaev.ConvertLineParam | src/beems/solver/func_kitaev.py:60-61 | a parameter line sets its key to float() of its value, or fails with float()'s error |
| FuncKitaev.ConvertLineRole | src/beems/solver/func_kitaev.py:56-66 | every line is dropped, kept newline-terminated, or read as one of the eight parameters |
| FuncKitaev.Terminated | src/beems/solver/func_kitaev.py:64-65 | the kept line ends in a newline and extends the original by at most that newline |
| FuncKitaev.LineKeyTerminated | src/beems/solver/func_kitaev.py:58-65 | adding the newline does not change the key of the line |
| FuncKitaev.ClassifyLine | src/beems/solver/func_kitaev.py:57-66 | the body of the input loop classifies the line as ConvertLine does |
| FuncKitaev.ApplyRole | src/beems/solver/func_kitaev.py:61-66 | a parameter line updates dic_param and a kept line is appended to lines_out, nothing else changes |
| FuncKitaev.ReadParams | src/beems/solver/func_kitaev.py:54-66 | the input loop builds dic_param and lines_out as ConvertLines defines, stopping at the first float() failure |
| FuncKitaev.FoldFacts | src/beems/solver/func_kitaev.py:54-66 | dic_param has distinct keys, all of them parameter names; lines_out only holds kept lines |
| FuncKitaev.FoldKept | src/beems/solver/func_kitaev.py:62-66 | every kept line ends up in lines_out |
| FuncKitaev.FoldStep | src/beems/solver/func_kitaev.py:56-66 | one more line applies its role to the state reached so far |
| FuncKitaev.FoldErr | src/beems/solver/func_kitaev.py:56-61 | the first line whose value float() rejects ends the conversion with that error |
| FuncKitaev.ConvertLinesFacts | src/beems/solver/func_kitaev.py:54-66 | after the input loop, dic_param has distinct parameter keys and every assignment other than a parameter or L is in lines_out |
| FuncKitaev.ConvertParamLast | src/beems/solver/func_kitaev.py:60-61 | a parameter set on several lines keeps the value of the last one |
| FuncKitaev.ParseKeyName | src/beems/solver/func_kitaev.py:120-146 | every coupling key written (J<bond>, primes, axes) parses back to its coupling |
| FuncKitaev.ParseAxesText | src/beems/solver/func_kitaev.py:115-116 | the axis suffix of a key parses back to its two axes |
| FuncKitaev.ParseTailText | src/beems/solver/func_kitaev.py:140-146 | the primes and axes after the bond number parse back to the reach and the axes |
| FuncKitaev.KeyNameInjective | src/beems/solver/func_kitaev.py:113-146 | distinct couplings get distinct keys |
| FuncKitaev.KeyNameShape | src/beems/solver/func_kitaev.py:120 | a coupling key starts with J, has no blanks or "=", and is neither a parameter key nor L |
| FuncKitaev.ValueOfSymmetric | src/beems/solver/func_kitaev.py:113-116 | the coupling matrix is symmetric: ab and ba get the same value |
| FuncKitaev.Sym | src/beems/solver/func_kitaev.py:113-116 | add_symmetric makes two assignments per component |
| FuncKitaev.LastWriteAppend | src/beems/solver/func_kitaev.py:109-146 | of two runs of assignments, the later one decides a key it touches |
| FuncKitaev.LastWriteSym | src/beems/solver/func_kitaev.py:113-116 | add_symmetric sets exactly the components it is given, in both orders, to its value |
| FuncKitaev.TouchesFacts | src/beems/solver/func_kitaev.py:140-142 | the J2 components are the diagonal ones; [:i+1] and [i:] select the off-diagonal pairs up to and from i |
| FuncKitaev.LastWriteDiag | src/beems/solver/func_kitaev.py:119-124 | the main diagonal of bond i holds J, plus K on axis i |
| FuncKitaev.LastWriteGamma | src/beems/solver/func_kitaev.py:128-136 | the nearest off-diagonal couplings of bond i are G on the pair perpendicular to axis i and GP on the other two |
| FuncKitaev.LastWriteBond | src/beems/solver/func_kitaev.py:119-146 | one bond's assignments set exactly its couplings, to ValueOf |
| FuncKitaev.LastWriteAll | src/beems/solver/func_kitaev.py:119-146 | after n bonds, a coupling of an earlier bond has its value and no other is set |
| FuncKitaev.NamedLast | src/beems/solver/func_kitaev.py:109-146 | the dict holds for each key the last value assigned to it |
| FuncKitaev.NamedKeys | src/beems/solver/func_kitaev.py:109-146 | the keys of the dict are the keys assigned |
| FuncKitaev.KitaevDictGet | src/beems/solver/func_kitaev.py:80-148 | dic_kitaev holds each key once and maps each coupling's key to its value, or lacks it when the coupling is not stored |
| FuncKitaev.KitaevDictKeys | src/beems/solver/func_kitaev.py:80-148 | a key is in dic_kitaev exactly when it names a stored coupling |
| FuncKitaev.KitaevDictKeyStored | src/beems/solver/func_kitaev.py:80-148 | every key of dic_kitaev names a stored coupling |
| FuncKitaev.KeyedCouplingStored | src/beems/solver/func_kitaev.py:80-148 | a coupling whose key is in dic_kitaev is one of the stored couplings |
| FuncKitaev.KitaevDictStoredKey | src/beems/solver/func_kitaev.py:80-148 | every stored coupling has its key in dic_kitaev |
| FuncKitaev.StoredNumberOf | src/beems/solver/func_kitaev.py:119-146 | the stored couplings are numbered 0..62, bond by bond |
| FuncKitaev.StoredAtNumber | src/beems/solver/func_kitaev.py:119-146 | the numbering of the stored couplings is a bijection onto 0..62 |
| FuncKitaev.KitaevDictSize | src/beems/solver/func_kitaev.py:80-148 | dic_kitaev has 63 entries: 21 per bond |
| FuncKitaev.KitaevDictFacts | src/beems/solver/func_kitaev.py:80-148 | dic_kitaev has 63 distinct keys, each a stored coupling, each with its value |
| FuncKitaev.ParamDefaultsFacts | src/beems/solver/func_kitaev.py:95 | the defaults hold the eight parameter keys, each 0.0 |
| FuncKitaev.ParamDefault | src/beems/solver/func_kitaev.py:95-106 | a parameter comes from dic_param when given and is 0.0 otherwise |
| FuncKitaev.SymStep | src/beems/solver/func_kitaev.py:114-116 | one more component sets its key and then its mirrored key |
| FuncKitaev.AddSymmetric | src/beems/solver/func_kitaev.py:113-116 | the loop of add_symmetric applies its assignments to the dict in order |
| FuncKitaev.DiagStep | src/beems/solver/func_kitaev.py:124 | the diagonal assignment sets x, y and z in that order |
| FuncKitaev.AddBond | src/beems/solver/func_kitaev.py:119-146 | the body of the bond loop applies that bond's assignments in order |
| FuncKitaev.GetDicKitaev | src/beems/solver/func_kitaev.py:80-148 | get_dic_kitaev returns the 63-entry dict of the couplings of the parameters, each with its value |
| FuncKitaev.Named | src/beems/solver/func_kitaev.py:115-116 | one dict entry per assignment |
| FuncKitaev.CouplingLines | src/beems/solver/func_kitaev.py:72-73 | one line per entry of dic_kitaev |
| FuncKitaev.AssignLineKey | src/beems/solver/func_kitaev.py:58-59 | a line "k = v" reads back with key k |
| FuncKitaev.CouplingLineKey | src/beems/solver/func_kitaev.py:73 | a coupling line is an assignment whose key is the coupling's name |
| FuncKitaev.CouplingLinesFacts | src/beems/solver/func_kitaev.py:72-73 | the 63 coupling lines are assignments and include the line of every stored coupling with its value |
| FuncKitaev.CouplingInstallable | src/beems/solver/func_kitaev.py:72-73 | each coupling line is an assignment of a coupling key |
| FuncKitaev.CouplingLineIn | src/beems/solver/func_kitaev.py:72-73 | each stored coupling has its line, with its value |
| FuncKitaev.ConvertedLinesFacts | src/beems/solver/func_kitaev.py:54-77 | the rewritten stan.in is the kept lines followed by 63 coupling lines, every line an assignment, every coupling present |
| FuncKitaev.WriteConverted | src/beems/solver/func_kitaev.py:72-77 | the text written is the kept lines followed by one line per coupling |
| FuncKitaev.WriteLines | src/beems/solver/func_kitaev.py:75-77 | writing the lines one by one gives their concatenation |
| FuncKitaev.ConvertStaninKitaev | src/beems/solver/func_kitaev.py:30-77 | convert_stanin_kitaev writes back the text ConvertText defines, or fails with the first float() error |
| FuncKitaev.SiteNumber | src/beems/solver/func_kitaev.py:151-169 | int() of the second token of the second line; IndexError when there are fewer than two lines or tokens, ValueError exactly when that token is not an integer |
| FuncKitaev.SiteNumberOfHeader | src/beems/solver/func_kitaev.py:151-169 | a count written after a word and blanks on the second line of locspn.def reads back |
| FuncKitaev.FirstMissing | src/beems/solver/func_kitaev.py:192-198 | the first missing entry of dict_mag, if any, is the one whose KeyError mod_trans raises |
| FuncKitaev.Patterns | src/beems/solver/func_kitaev.py:216-221 | four patterns per site |
| FuncKitaev.PatternsHermitian | src/beems/solver/func_kitaev.py:216-221 | the one-body terms are Hermitian: each (s1, s2, re, im) has its partner (s2, s1, re, -im); spins are 0 or 1 |
| FuncKitaev.PatternsZeeman | src/beems/solver/func_kitaev.py:201-221 | the Sz terms differ by hz and cancel in sum, the S+/S- terms carry -hx in their real parts and hy in their imaginary parts |
| FuncKitaev.Rows | src/beems/solver/func_kitaev.py:235-236 | Nsites times four term rows |
| FuncKitaev.SiteRows | src/beems/solver/func_kitaev.py:236 | the first k patterns of one site |
| FuncKitaev.LinesOf | src/beems/solver/func_kitaev.py:237 | one line per term row |
| FuncKitaev.RowsAt | src/beems/solver/func_kitaev.py:235-236 | row 4s + k is pattern k of site s |
| FuncKitaev.TransLinesLength | src/beems/solver/func_kitaev.py:226-237 | trans.def has five header lines and four lines per site |
| FuncKitaev.TransLineAt | src/beems/solver/func_kitaev.py:235-237 | line 5 + 4s + k is pattern k of site s |
| FuncKitaev.NumLineCount | src/beems/solver/func_kitaev.py:229 | the count line reads back, with split()[1], as 4 * Nsites |
| FuncKitaev.DeclaredCount | src/beems/solver/func_kitaev.py:226-237 | the declared count equals the number of term lines |
| FuncKitaev.TermLineFields | src/beems/solver/func_kitaev.py:237 | a term line splits into site, spin1, site, spin2 and the two formatted coefficients |
| FuncKitaev.TermCellsRow | src/beems/solver/func_kitaev.py:237 | the padded fields of a term line are separated by blanks |
| FuncKitaev.ModTrans | src/beems/solver/func_kitaev.py:172-237 | mod_trans writes TransText: the header then four lines per site, or the KeyError of the first missing dict_mag entry |
| FuncKitaev.WriteHeader | src/beems/solver/func_kitaev.py:228-230 | the three header writes give the five header lines |
| FuncKitaev.WriteSites | src/beems/solver/func_kitaev.py:235-237 | the site loop appends the lines of every site in order |
| FuncKitaev.WriteSite | src/beems/solver/func_kitaev.py:236-237 | the pattern loop appends the four lines of one site |
| FuncKitaev.WriteRow | src/beems/solver/func_kitaev.py:237 | one more pattern appends its line |
| FuncKitaev.ConcatHeader | src/beems/solver/func_kitaev.py:228-230 | the header text is the rule line, the count line and the rule line three times |
| AftMag.ResultTextOneLine | src/beems/solver/Aft_mag.py:42-43 | resul_mag.dat holds a single line: the value formatted with 16 decimals between two blanks, then a newline |
| AftMag.TotMag | src/beems/solver/Aft_mag.py:32-38 | succeeds exactly when data[3] has a second token that float() reads and Nspin is non-zero, and then tot_mag times Nspin is minus that value; IndexError, ValueError and ZeroDivisionError otherwise |
| AftMag.MagFile | src/beems/solver/Aft_mag.py:9-45 | main writes resul_mag.dat exactly when tot_mag is computed: a blank, tot_mag with 16 decimals, a blank and a newline; otherwise tot_mag's error |
| AftMag.TotMagOfLines | src/beems/solver/Aft_mag.py:33-38 | on an energy file of whole lines, main succeeds and tot_mag times Nspin is minus the second token of the fourth line |
| AftMag.TotMagValue | src/beems/solver/Aft_mag.py:35-38 | tot_mag is exactly -x / Nspin, where x is float() of the second token of data[3] |
| AftMag.SpinSumsPair | src/beems/solver/Aft_mag.py:85-98 | two lines accumulate to the sum of what each contributes |
| AftMag.OffDiagonalContribution | src/beems/solver/Aft_mag.py:86-94 | a site-0 line with spins (0,1) adds (re, im, 0) and one with (1,0) adds (re, -im, 0) |
| AftMag.DiagonalContribution | src/beems/solver/Aft_mag.py:95-98 | a site-0 line with spins (0,0) adds re to Sz and one with (1,1) subtracts it |
| AftMag.HermitianPairXY | src/beems/solver/Aft_mag.py:89-94 | a (0,1)/(1,0) pair with the same entries cancels in Sy and doubles in Sx |
| AftMag.HermitianPairZ | src/beems/solver/Aft_mag.py:95-98 | a (0,0)/(1,1) pair with the same entry cancels in Sz |
| AftMag.SquaredMagnitude | src/beems/solver/Aft_mag.py:106 | the radicand of tot_mag is never negative, so math.sqrt cannot fail |
| AftMag.SpinSumsErr | src/beems/solver/Aft_mag.py:85-98 | the first line that raises (a missing token, a failing float()) stops kitaev with its error |
| AftMag.AccumulateSpin | src/beems/solver/Aft_mag.py:79-98 | the loop over the lines computes the sums SpinSums defines, or its first error |
| AftMag.Kitaev | src/beems/solver/Aft_mag.py:48-112 | kitaev produces the text KitaevResult defines: the couplings gab and gc, the halved sums, the magnitude |

## Left out

- Running HPhi (`subprocess`, `Popen`, `run_hphi.sh`): a run is a parameter mapping the input text to the output lines it leaves, or to none.
- physbo's `bayes_search` and `random.randint`: the proposed actions and the random draw are parameters; `uuid4` and `datetime.now` are parameters too.
- Float formatting (`%f`, `%12.8f`, `{:.16f}`, `{:8f}`, `str(float)`, numpy's array printing), `float()`, `math.sqrt`, `sin` and `cos`: functions of the `Runtime` record, not their IEEE behaviour; `np.linspace` is exact real arithmetic.
- Float arithmetic: Python's and numpy's `+ - * / **` on floats are exact `real` arithmetic, so signed zero, infinities, NaN and OverflowError are not modelled. At H = 0, `mod_trans` writes `-0.5*hx` as `-0.000000`, but FuncKitaev.TransText has `fmt8f(0.0)` there. `Aft_mag.main` on a second token `0.0` writes ` -0.0000000000000000 `, but AftMag.TotMag gives `0.0`. `(gab*Sx)**2` in `kitaev` raises OverflowError when the product is large, but AftMag.Kitaev succeeds. numpy's `Sz / L` with L = 0 gives inf, but SolverHPhiStdGC.HitResult reports ZeroDivisionError.
- Text.ParseInt: accepts only an optional sign and ASCII digits inside optional whitespace; Python's `int()` also accepts underscores between digits (`1_000`) and non-ASCII decimal digits, which the model rejects.
- AftMag.Coupling: a `mag` entry that is not a number is reported before the file is read. `kitaev` only fails on it at the `tot_mag` line, so in Python a file error would be raised first.
- Grid.Axis: the point count must be a TOML integer; `int()` in `_preparation_data` also accepts a string such as `"5"`, which the model reports as TypeError.
- Values.PyEq: numbers compare by value, but lists and tables compare as whole values, entries and order included; Python also equates `[1]` with `[1.0]` and ignores key order when comparing dicts.
- h5py itself: the cache file is a sequence of groups, iterated in index order (h5py lists group names alphabetically, so "10" comes before "2"); dtypes and byte-string decoding are not modelled.
- Cache.Store: only stores with exactly one field key are modelled, because with more the numpy truth test in `search` raises for any non-trivial row.
- Filesystem plumbing (`copytree`, `move`, `rmtree`, `chdir`, `mkdir`, `glob`): directories and files are values passed in; only the names (`BO_No<i>`, `h<i>`, `stan<i>.in`) are modelled.
- TOML and CSV loading: the parsed dictionary or text is the input; `np.loadtxt` of `all_mag.csv` in `diff.py` is not modelled, so `Diff.DiffMain` takes the simulated column directly.
- Job.RestartFlag: `eval` is modelled only for the strings "True" and "False"; any other string is reported as an error instead of being evaluated.
- Printing and logging are left out: the terminal, the appends to `physbo.txt` in `BO_single.py` and the `tot_mag` append to `debug.txt` in `Aft_mag.py`. Only the cache's save line in `log` is modelled.
- Diff.Score: when the deviation is empty (both curves empty, or a one-element curve broadcast against an empty one), numpy's mean is NaN with a warning and `main` writes `"%12.8f  " % nan` into param.csv; the model reports an error instead and writes nothing.
- `hphi_io.py`: `_read_data` and `get_mag_from_file` (`_read_data` lacks `self` and is called as a bare name, so it cannot run), `run_dry`, `run_standard`, `run_expert`, `get_energy_sz_by_hphi` and the Hubbard classes are not modelled; they only drive HPhi or do not run.
- `func_kitaev.make_one_body_G_site0` is not modelled: it writes a constant `greenone.def`, and only `SolverKitaev.py` calls it.
- `SolverKitaev.py`, `SolverStdSz.py`, `SolverBase.py` and the plotting and fitting tools are not part of this model.
- FuncKitaev.TermLineFields: holds for `Runtime` records whose `{:8f}` output is non-empty and blank-free, as it is for finite floats.
- AftMag.ResultTextOneLine: holds when the `{0:.16f}` text has no newline, as for every float.
- Diff.ChParamLines: holds when the `%12.8f` text has no newline, as for every float.

## Findings

| source | as written | input that shows it | evidently intended | confidence | as-written member | corrected member |
|---|---|---|---|---|---|---|
| src/beems/solver/SolverHPhiStdGC.py:57-64 | on a cache hit `_run_hphi` prints Sz and L to `fd`, a name that is never bound, so it raises NameError before `resul_mag.dat` gets its value | any cache hit: a stored group whose field row is close to the requested field, with a non-empty Sz row | write `Sz / L` from the cache into `output/resul_mag.dat` | not executed | SolverHPhiStdGC.HitAsWrittenNeverWrites | SolverHPhiStdGC.HitResultSucceeds |
