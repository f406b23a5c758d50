# Parallel Jacobi eigen-solver for SVD/PCA (svd_cuda.py)

`cudaSVD` computes the eigen-decomposition of the covariance matrix A = Dᵀ D of a
data matrix D. From it the program derives the singular values and the left
singular vectors U. The work is done by CUDA kernels driven from Python:

- **Round-robin schedule.** `kernel_compute_all_chess_params` fills a table
  with the "chess tournament" (circle method) pairing of the P indices. There
  are P − 1 rounds of P/2 disjoint pairs, and each unordered pair occurs
  exactly once.
- **Transpose and product.** `parTranspose` and `transpose_parallel` transpose
  a row-major matrix. `kernel_MatMul` and `gpuMul.MatMul` compute a product in
  16 × 16 shared-memory tiles.
- **Rotation kernels.** For the pairs of one round, `kernel_row_update` writes
  X = (G A)ᵀ and `kernel_col_update` writes A' = G X and E' = G E. G is the
  block rotation holding, for each pair (k, l), cos on the diagonal, −sin at
  (k, l) and sin at (l, k). The class `dimUpdate` owns the device eigenvector
  buffer E across rounds.
- **Driver.** The sweep loop of `cudaSVD` runs up to 30 sweeps of P − 1 rounds.
  Afterwards the eigenvalues are read off the diagonal of A, sorted into
  descending order, and U is assembled from E.

The model is organised as follows:

- Device buffers are Dafny `array<real>` in row-major order. Host matrices are
  `seq<seq<real>>`, and module `Flat` relates the two.
- Each kernel is a method that runs its threads one after another. It is
  proved against a function giving the whole new buffer. The disjointness of
  the schedule's pairs is what lets a sequential run stand for the parallel
  launch.
- `dimUpdate` is a class whose constructor and methods update the device
  eigenvector buffer.
- The rotation parameters (the output of `compute_params`) are a parameter of
  the driver: `Params` maps the current A and the round to a (sin, cos) pair
  of P × P matrices.

The driver loop and the result assembly are modelled twice: once as written
(see Findings) and once as evidently intended. For the intended loop the model
proves two things:

- every round keeps A symmetric;
- with unit (cos² + sin² = 1) parameters, E stays orthonormal through every
  round of every sweep.

For the assembly the model proves that the eigenvalues come out in descending
order, as a rearrangement of A's diagonal, in step with the column order used
for U.

## Model

| member | source | states |
|---|---|---|
| Flat.Idx | svd_cuda.py:38 | the row-major index r·cols + c lies inside the buffer and gives back r and c by `/` and `%` |
| Flat.Flatten | svd_cuda.py:334-338 | the uploaded buffer holds entry (r, c) of the host matrix at r·cols + c |
| Flat.Unflatten | svd_cuda.py:355 | the downloaded matrix has entry (r, c) equal to buffer slot r·cols + c |
| Flat.UnflattenFlatten | svd_cuda.py:334-355 | uploading a matrix and reading it back yields the same matrix |
| Flat.FlatOfUnique | svd_cuda.py:355 | a buffer is the row-major layout of at most one matrix |
| Schedule.ChessTourneyParams | svd_cuda.py:397-410 | the pair of thread localID in round iter is two distinct indices below P, the smaller first |
| Schedule.ClosedForm | svd_cuda.py:401-407 | the two remainders equal iter + t and iter − t taken around the circle of P − 1 positions |
| Schedule.PairForm | svd_cuda.py:397-410 | the pair is the circle-method pair: (iter, P − 1) for thread 0, {iter + t, iter − t} mod P − 1 for thread t |
| Schedule.CirclePair | svd_cuda.py:397-410 | the circle-method pair is two distinct indices below P, the smaller first |
| Schedule.RoundPairsDisjoint | svd_cuda.py:397-410 | two different threads of the same round share no index |
| Schedule.BlockOf | svd_cuda.py:397-410 | every index is played by some thread in every round |
| Schedule.BlockOfUnique | svd_cuda.py:397-410 | the thread playing an index in a round is unique |
| Schedule.ScheduleNoRepeat | svd_cuda.py:397-410 | two (round, thread) slots with equal pairs are the same slot: no pair is played twice |
| Schedule.MeetingOf | svd_cuda.py:397-410 | for every pair i < j below P, a round below P − 1 and a thread below P/2 whose pair is (i, j) |
| Schedule.ScheduleTable | svd_cuda.py:411-420 | the table holds (P − 1)·P entries |
| Schedule.SlotValue | svd_cuda.py:411-420 | the value stored in a table slot is an index below P |
| Schedule.WriteRound | svd_cuda.py:411-420 | given a table that agrees with the schedule on the earlier rounds' slots, the threads of round b make it agree on round b's slots as well |
| Schedule.Slot | svd_cuda.py:414 | slot iter·P + 2·localID and the next slot lie inside the table |
| Schedule.TableAt | svd_cuda.py:411-420 | slots iter·P + 2·localID and iter·P + 2·localID + 1 hold the smaller and larger index of that thread's pair |
| Schedule.ComputeAllChessParams | svd_cuda.py:411-420 | after the launch the device table equals the schedule table |
| Schedule.TableHoldsEveryPairOnce | svd_cuda.py:411-420 | every pair i < j appears in the table, at exactly one (round, thread) slot |
| Transpose.Transposed | svd_cuda.py:34-40 | the transpose has the same number of entries |
| Transpose.TransposedMoves | svd_cuda.py:38 | input entry (i, j) lands at output (j, i) |
| Transpose.TransposeTwice | svd_cuda.py:34-40 | transposing twice gives back the input |
| Transpose.OneWriterPerSlot | svd_cuda.py:35-38 | each output slot is written by exactly one in-range thread |
| Transpose.TransposeRow | svd_cuda.py:34-40 | given output rows before iy that hold the transpose, the threads of row iy make rows up to and including iy hold it |
| Transpose.ParTranspose | svd_cuda.py:34-40 | over a launch covering the output, the output buffer becomes the transpose of the input |
| Transpose.TransposeParallel | svd_cuda.py:43-63 | the returned N × M matrix has input (i, j) at (j, i), and is the transpose |
| TiledMatMul.MatrixProduct | svd_cuda.py:139-169 | the product of an rA × cA and a cA × cB matrix has rA·cB entries |
| TiledMatMul.NumTiles | svd_cuda.py:146 | the K loop's tiles cover all cA columns of A |
| TiledMatMul.TiledSumPastWidth | svd_cuda.py:147-152 | staged positions at or past cA add nothing to the accumulation |
| TiledMatMul.PadA | svd_cuda.py:147-152 | the staged A entry is A's entry (r, x) inside the rA × cA matrix and 0 outside it |
| TiledMatMul.PadB | svd_cuda.py:153-158 | the staged B entry is B's entry (x, c) inside the rB × cB matrix and 0 outside it |
| TiledMatMul.TiledSumOutside | svd_cuda.py:146-168 | a thread whose row is past rA or whose column is past cB accumulates 0 |
| TiledMatMul.TiledSumIsDot | svd_cuda.py:146-165 | when cA = rB, the tiled accumulation over any n positions is the dot product of row r of A and column c of B over min(n, cA) terms |
| TiledMatMul.TiledStep | svd_cuda.py:161-162 | one more K position adds the product of the two staged entries |
| TiledMatMul.StageA | svd_cuda.py:147-152 | the staged A value is the padded entry of A |
| TiledMatMul.StageB | svd_cuda.py:153-158 | the staged B value is the padded entry of B |
| TiledMatMul.TileDot | svd_cuda.py:159-164 | one tile's 16 K positions extend the accumulation from n to n + 16 positions |
| TiledMatMul.ThreadDot | svd_cuda.py:145-165 | a thread's C_sub is the tiled accumulation over all tiles |
| TiledMatMul.CellValue | svd_cuda.py:166-167 | when cA = rB, the value stored for a cell is the matrix product's entry |
| TiledMatMul.OutputIndex | svd_cuda.py:167 | the written index is row_·cB + col_ |
| TiledMatMul.KernelMatMul | svd_cuda.py:139-169 | every cell (row, col) of the rA × cB result receives its tiled accumulation; nothing past rA·cB is written |
| TiledMatMul.MatMulAsWritten | svd_cuda.py:172-201 | with cA passed in the cB slot, cell (row, col) is stored at row·cA + col and holds the sum against B read as cA wide; the other cells stay 0 |
| TiledMatMul.MatMulAsWrittenMisplaces | svd_cuda.py:184-190 | for a 2 × 1 by 1 × 2 product, flat cell 1 of the as-written result is 1, where the product has 2 |
| TiledMatMul.AsWrittenCellOne | svd_cuda.py:184-190 | the tiled sum the as-written call stores in flat cell 1 is 1.0 |
| TiledMatMul.ProductCellOne | svd_cuda.py:139-169 | cell 1 of the true product in the same example is 2.0 |
| TiledMatMul.MatMul | svd_cuda.py:172-201 | with the kernel given cB, the result is the matrix product A·B |
| Jacobi.PairOf | svd_cuda.py:278-279 | the pair of a round holding index i: distinct indices, smaller first, one of them i |
| Jacobi.Partner | svd_cuda.py:285 | i's partner in a round is a different index, and the partner's pair is i's pair |
| Jacobi.RowPhase | svd_cuda.py:270-292 | the matrix the row kernel writes is P × P |
| Jacobi.ColPhase | svd_cuda.py:296-327 | the matrix the column kernel writes is P × P |
| Jacobi.Round | svd_cuda.py:270-327 | a round (row phase, then column phase) yields a P × P matrix |
| Jacobi.RowUpdateThread | svd_cuda.py:286-291 | thread localID writes X[localID][k] = A[k][localID]·cos − A[l][localID]·sin and X[localID][l] = A[k][localID]·sin + A[l][localID]·cos, and nothing else |
| Jacobi.RowUpdateBlock | svd_cuda.py:270-292 | the P threads of one block write columns k and l of every row of X with the rotated entries of rows k and l of A; every other slot keeps its value |
| Jacobi.RowUpdateBlockOfRound | svd_cuda.py:270-292 | given that the columns of the blocks before b already hold the row phase, after block b the columns of blocks b and earlier hold it too |
| Jacobi.KernelRowUpdate | svd_cuda.py:270-292 | after the launch X holds the row phase (G A)ᵀ of A with the round's parameters |
| Jacobi.ColUpdateThread | svd_cuda.py:315-325 | thread localID rotates entries (k, localID) and (l, localID) of X into A and of E into E, and writes nothing else |
| Jacobi.RotateEigenColumn | svd_cuda.py:320-325 | entries (k, c) and (l, c) of E become the rotated pair; every other slot of E keeps its value |
| Jacobi.ColUpdateBlock | svd_cuda.py:296-327 | the P threads of one block write rows k and l of A from X and of E from the old E, rotated; every other slot of A and E keeps its value |
| Jacobi.ColUpdateBlockOfRound | svd_cuda.py:296-327 | given that rows of the blocks before b hold the column phase in A and G E_old in E, after block b the rows of blocks b and earlier do too, and the rows of later blocks of E still hold E_old |
| Jacobi.KernelColUpdate | svd_cuda.py:296-327 | after the launch A holds G X and E holds G E_old |
| Jacobi.RowPhasePair | svd_cuda.py:285-291 | for the pair (k, l) of a thread, entries (r, k) and (r, l) of the row phase are the rotated entries of rows k and l of A |
| Jacobi.ColPhasePair | svd_cuda.py:315-325 | for the pair (k, l) of a thread, rows k and l of the column phase are the rotated rows k and l |
| Jacobi.ColRotatedKeepsNorm | svd_cuda.py:316-325 | with cos² + sin² = 1, rotating a column pair keeps its squared length |
| Jacobi.Apply | svd_cuda.py:296-327 | applying a block rotation to a P × P matrix yields a P × P matrix |
| Jacobi.RoundRotation | svd_cuda.py:280-281 | the block rotation of a round has, on each row, one diagonal entry and one partner entry, from the pair's parameters |
| Jacobi.ColPhaseIsRotation | svd_cuda.py:296-327 | the column phase equals left multiplication by the round's block rotation G |
| Jacobi.RowPhaseIsRotation | svd_cuda.py:270-292 | entry (r, c) of the row phase is entry (c, r) of G A |
| Jacobi.RoundPreservesSymmetry | svd_cuda.py:270-327 | a round maps a symmetric A to a symmetric A (G A Gᵀ) |
| Jacobi.RoundIsSandwich | svd_cuda.py:270-327 | entry (i, j) of a round's output is entry (j, i) of G A Gᵀ, and entry (i, j) of G A Gᵀ when A is symmetric |
| Jacobi.SandwichEntry | svd_cuda.py:296-327 | G applied to a matrix holding (G A)ᵀ gives, at (i, j), entry (j, i) of G A Gᵀ |
| Jacobi.SandwichTranspose | svd_cuda.py:270-327 | for a symmetric A, G A Gᵀ is symmetric entry by entry |
| Jacobi.Identity | svd_cuda.py:330 | the initial eigenvector matrix (the identity) is P × P |
| Jacobi.IdentityOrthonormal | svd_cuda.py:330 | the initial eigenvector matrix is orthonormal |
| Jacobi.RoundRotationOrthogonal | svd_cuda.py:280-281 | with unit parameters the rows of G are orthonormal |
| Jacobi.StageKeepsColumnDots | svd_cuda.py:316-325 | rotating pairs of rows one at a time keeps every column dot product |
| Jacobi.ApplyKeepsColumnDots | svd_cuda.py:316-325 | an orthogonal block rotation keeps every column dot product |
| Jacobi.ColPhaseKeepsOrthonormal | svd_cuda.py:320-325 | with unit parameters the column phase maps an orthonormal E to an orthonormal E |
| Host.ParamsAt | svd_cuda.py:457 | the parameters of every round have the shape the kernels need |
| Host.Filled | svd_cuda.py:438 | the P × P matrix with every entry v |
| Host.ToDevice | svd_cuda.py:334-335 | a fresh buffer of P·P entries that reads back as the host matrix |
| Host.DimUpdate.constructor | svd_cuda.py:330-331 | the device eigenvector buffer starts as the identity |
| Host.DimUpdate.E | svd_cuda.py:331 | the device eigenvector buffer read as a P × P matrix |
| Host.DimUpdate.RowUpdate | svd_cuda.py:333-355 | the downloaded X is the row phase of the uploaded A |
| Host.DimUpdate.ColUpdate | svd_cuda.py:357-382 | the device E becomes G E_old and is returned; the rotated A stays on the device |
| Host.DimUpdate.ColUpdateKeepA | svd_cuda.py:357-382 | as ColUpdate, and also returns the rotated A = G X |
| Host.EigenAsWritten | svd_cuda.py:449-466 | the eigenvector matrix after the rounds of the loop as written is P × P |
| Host.CudaJacobiAsWritten | svd_cuda.py:449-466 | the host A comes out unchanged; E is the product of the P − 1 rotations of the first sweep, all computed from the input A; later sweeps do nothing |
| Host.AsWrittenIsFrozenFirstSweep | svd_cuda.py:449-466 | the loop as written equals the first sweep of the intended loop with parameters frozen at the input A |
| Host.Step | svd_cuda.py:457-463 | one intended round keeps A and E P × P (what they become is stated by Host.StepIsRotation) |
| Host.StepIsRotation | svd_cuda.py:457-463 | one intended round maps E to G E, and A to the matrix whose entry (i, j) is entry (j, i) of G A Gᵀ; for a symmetric A that is G A Gᵀ itself |
| Host.Run | svd_cuda.py:453-466 | the intended state after some sweeps and rounds has P × P A and E |
| Host.CudaJacobi | svd_cuda.py:449-466 | with the round counter reset every sweep and A carried forward, the loop ends in the state Run gives after 30 sweeps |
| Host.RunFirst | svd_cuda.py:449-452 | the loop starts from the input A and the identity E |
| Host.RunNextSweep | svd_cuda.py:453-466 | each sweep starts where the previous one ended |
| Host.StepKeepsSymmetric | svd_cuda.py:457-463 | a round keeps A symmetric |
| Host.SweepKeepsSymmetric | svd_cuda.py:454-464 | the rounds of a sweep keep A symmetric |
| Host.SweepStartSymmetric | svd_cuda.py:453-466 | every sweep starts from a symmetric A when the input is symmetric |
| Host.NextSweepSymmetric | svd_cuda.py:453-466 | a symmetric start of one sweep gives a symmetric start of the next |
| Host.RunKeepsSymmetric | svd_cuda.py:453-466 | a symmetric input stays symmetric through every round of every sweep |
| Host.StepKeepsOrthonormal | svd_cuda.py:462-463 | with unit parameters a round keeps E orthonormal |
| Host.SweepKeepsOrthonormal | svd_cuda.py:454-464 | with unit parameters the rounds of a sweep keep E orthonormal |
| Host.SweepStartOrthonormal | svd_cuda.py:453-466 | with unit parameters every sweep starts from an orthonormal E |
| Host.NextSweepOrthonormal | svd_cuda.py:453-466 | an orthonormal E at the start of one sweep is orthonormal at the next |
| Host.RunKeepsOrthonormal | svd_cuda.py:453-466 | with unit parameters E is orthonormal after every round of every sweep |
| Host.Frozen | svd_cuda.py:457 | the frozen parameter function ignores its matrix argument and uses A |
| Host.Diag | svd_cuda.py:472-473 | the diagonal of A, entry i being A[i][i] |
| Host.ReadDiagonal | svd_cuda.py:469-474 | the loop yields A's diagonal and the indices 0, 1, …, P − 1 |
| Host.EigenvaluesOf | svd_cuda.py:477-479 | the sorted and flipped diagonal has P entries |
| Host.AsWrittenOrder | svd_cuda.py:478-480 | the as-written column order has P entries |
| Host.Order | svd_cuda.py:477-480 | the descending order of the diagonal lists P indices below P |
| Host.EigenvaluesMatchOrder | svd_cuda.py:477-480 | the eigenvalues are descending and a rearrangement of A's diagonal; Order is a permutation of 0 … P − 1 with diagonal[Order[j]] = eigenvalue j |
| Host.AsWrittenOrderIsReversal | svd_cuda.py:478-480 | the as-written column order is P − 1, …, 0 whatever A is |
| Host.UAsWritten | svd_cuda.py:489-491 | U as written is P × P |
| Host.UOf | svd_cuda.py:489-491 | U with column j taken from the eigenvector of the j-th largest eigenvalue is P × P |
| Host.PickColumns | svd_cuda.py:489-491 | U[i][j] = E[i][order[j]] for every i, j |
| Host.PickRows | svd_cuda.py:489-491 | U[i][j] = E[order[j]][i] for every i, j |
| Host.AssembleAsWritten | svd_cuda.py:469-491 | eigenvalues are A's diagonal in descending order; U[i][j] = E[i][P − 1 − j] |
| Host.Assemble | svd_cuda.py:469-491 | eigenvalues as above; U's column j is the row of E for the j-th largest diagonal entry |
| Sorting.Range | svd_cuda.py:474 | the indices 0 … n − 1 |
| Sorting.Insert | svd_cuda.py:478 | inserting an index keeps the length and the index bound |
| Sorting.InsertPermutes | svd_cuda.py:478 | inserting i adds exactly i to the multiset of indices |
| Sorting.InsertSorted | svd_cuda.py:478 | insertion into an order sorted by value stays sorted by value |
| Sorting.InsertLargest | svd_cuda.py:478 | an index whose value is at least every other lands last |
| Sorting.ArgSortPrefix | svd_cuda.py:478 | the stable argsort of the first n values lists n indices below n |
| Sorting.ArgSortPrefixPermutation | svd_cuda.py:478 | the argsort of a prefix is a permutation of its indices |
| Sorting.ArgSortPrefixSorted | svd_cuda.py:478 | the argsort of a prefix orders the values ascending |
| Sorting.ArgSort | svd_cuda.py:478 | the argsort lists |d| indices below |d| |
| Sorting.ArgSortIsSortedPermutation | svd_cuda.py:478 | the argsort is a permutation of 0 … n − 1 ordering the values ascending |
| Sorting.Gather | svd_cuda.py:477-478 | picking values by an index sequence keeps its length and entries |
| Sorting.GatherArgSortPrefix | svd_cuda.py:477-478 | the values picked by the argsort of a prefix are that prefix rearranged |
| Sorting.SortAsc | svd_cuda.py:477 | the sorted values have the input's length |
| Sorting.SortAscIsSortedPermutation | svd_cuda.py:477 | sorting yields ascending values that are a rearrangement of the input |
| Sorting.Reverse | svd_cuda.py:479-480 | the flip puts entry |s| − 1 − i at i |
| Sorting.ReverseFacts | svd_cuda.py:479-480 | flipping twice is the identity and flipping keeps the multiset |
| Sorting.Iota | svd_cuda.py:474 | e_indices holds i at position i |
| Sorting.ReversedArgSortIota | svd_cuda.py:478-480 | the flipped argsort of 0, 1, …, n − 1 is n − 1, …, 0 |
| TwoByTwo.QuarterSweeps | svd_cuda.py:453-466 | with quarter-turn parameters at P = 2, the intended loop's E after s sweeps is the (s mod 4)-th quarter turn |
| TwoByTwo.AsWrittenQuarter | svd_cuda.py:449-466 | with the same parameters the loop as written ends with one quarter turn |
| TwoByTwo.OneSweepOnly | svd_cuda.py:449-466 | the loop as written yields [[0, −1], [1, 0]] where 30 sweeps of the intended loop yield −I |
| TwoByTwo.IntendedRun | svd_cuda.py:453-466 | on [[7, 12], [12, 0]] with Jacobi parameters, every sweep count ≥ 1 ends in A = diag(16, −9), E = [[0.8, 0.6], [−0.6, 0.8]] |
| TwoByTwo.EigenvaluesFromInput | svd_cuda.py:457-474 | the as-written eigenvalues of that input are 7 and 0 (its diagonal); the intended ones are 16 and −9, and those are eigenvalues of the input |
| TwoByTwo.EigenvaluesTwo | svd_cuda.py:472-480 | for a 2 × 2 A with A00 > A11 the eigenvalues read are [A00, A11] |
| TwoByTwo.ColumnsOfU | svd_cuda.py:488-491 | the as-written U's first column (0.6, 0.8) is not an eigenvector for 16; the intended U's columns are eigenvectors for 16 and −9 |

## Left out

- CUDA concurrency: each kernel's threads run one after another in the model. `__syncthreads` and shared memory are not modelled. The disjointness of a round's pairs (Schedule.RoundPairsDisjoint, Schedule.BlockOfUnique) is what makes the sequential order stand for the parallel one.
- Duplicate threads and blocks:
  - The row and column launches use P × P threads per block and a P/2 × P/2 grid (svd_cuda.py:352-353, 378-379). The model runs one thread per column and one block per pair.
  - Across the duplicate blocks, the column kernel's read-modify-write of E is unsynchronised. Its outcome is not modelled.
  - The schedule launch's extra threads (threadIdx.x up to P − 2, svd_cuda.py:431-432) write beyond the P/2 pairs of a round. They are not modelled.
- Odd P: the model requires an even P ≥ 2. The `P/2 + 1` grid size for odd P (svd_cuda.py:344-345, 366-367) and the schedule for odd P are not modelled.
- `kernel_compute_params` / `compute_params` (svd_cuda.py:209-263): the sine and cosine matrices are a parameter `Params` of the driver. The square roots, the `fabs` and EPSILON tests and the float behaviour are not modelled. Orthonormality of E is proved under the hypothesis that every pair has cos² + sin² = 1.
- Arithmetic: real arithmetic stands in for float32. The `np.float32` casts and rounding are not modelled, and neither is integer overflow of `int` indices.
- Dᵀ D set-up: the transpose and product that build A (svd_cuda.py:435-437) are modelled as operations (Transpose.TransposeParallel, TiledMatMul.MatMul) but are not composed into the driver. The driver takes A as input.
- Trailing computations: `eigenvectors_T` (svd_cuda.py:467), SIGMA, `inv_SIGMA`, U_T and V_T (svd_cuda.py:483-502), and the printing are not modelled. The square root and the division by singular values are floating-point computations outside the model.
- Unused code: the unused product kernels and variants of the gpuMul class (svd_cuda.py:66-135) are not modelled.
- Host.CudaJacobi: the similarity A_n = E A₀ Eᵀ between the carried A and the accumulated E is not proved. Only symmetry of A and orthonormality of E are.
- Diagonalisation: convergence of the sweeps is not proved. The stopping constants EPSILON and THRESHOLD are unused by the loop.
- TiledMatMul.MatMulAsWritten: modelled only when cA ≤ cB. The program's own call (svd_cuda.py:437) has cA = N and cB = P, so only N ≤ P is covered. The usual shape N > P makes the call read and write beyond the buffers, and the model does not describe out-of-bounds accesses.
- TiledMatMul.MatMulAsWritten: `gpuarray.empty` is modelled as a zero-filled buffer.
- Sorting.ArgSort: `np.argsort` is modelled as a stable insertion argsort. NumPy's default quicksort does not promise stability; the results agree whenever the values are distinct. The sort order itself (ascending values, a permutation of the indices) is stated exactly.

## Findings

| source | as written | input that shows it | evidently intended | confidence | as-written member | corrected member |
|---|---|---|---|---|---|---|
| svd_cuda.py:449-464 | `itr` is set to 0 once before the sweep loop and never reset, so sweeps 2 to 30 run no round | P = 2, sin = [[0, 1], [0, 0]], cos = 0: E after the loop is [[0, −1], [1, 0]] where 30 sweeps give −I | reset `itr` to 0 at the start of every sweep | not executed | TwoByTwo.OneSweepOnly, Host.CudaJacobiAsWritten | Host.CudaJacobi |
| svd_cuda.py:457-463 | `col_update` returns only the eigenvectors, so the host A is never reassigned: every round's parameters and row update use the input matrix, and the eigenvalues are read off the input's diagonal | A = [[7, 12], [12, 0]]: eigenvalues reported 7 and 0; the eigenvalues are 16 and −9 | carry the rotated A from the column update into the next round | not executed | TwoByTwo.EigenvaluesFromInput, Host.AsWrittenIsFrozenFirstSweep | Host.DimUpdate.ColUpdateKeepA, Host.CudaJacobi |
| svd_cuda.py:478-491 | the column order is the flipped argsort of `e_indices` (always P − 1 … 0), and U takes columns of E, whereas the rounds rotate E's rows | A = [[7, 12], [12, 0]] after the intended loop: U's first column is (0.6, 0.8), not an eigenvector for 16 | order by the argsort of the eigenvalues and take U's column j from row order[j] of E | not executed | TwoByTwo.ColumnsOfU, Host.AssembleAsWritten | Host.Assemble |
| svd_cuda.py:184-190 | the kernel receives cA where it expects cB, so the output is laid out with row stride cA and B is read as cA wide | A = 2 × 1 of ones, B = [1, 2] (1 × 2): flat cell 1 of the result is 1, the product's is 2. At svd_cuda.py:437 (cA = N, cB = P) the modelled case is N ≤ P; N > P goes out of bounds and is not modelled | pass cB | not executed | TiledMatMul.MatMulAsWrittenMisplaces, TiledMatMul.MatMulAsWritten | TiledMatMul.MatMul |
