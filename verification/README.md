# Tabgrad verification

A Dafny model of the parts of the Tabgrad tensor runtime whose correctness is
hard to see from the code: software floating point on the GPU and its
counterpart on the CPU, the lock-free completion protocol between a GPU worker
and a consumer, lowering and execution with memory reuse, reverse-mode
differentiation, ownership with cycle collection, the request queue, and the
nested lists of the Python layer. `dafny verify dfyconfig.toml` checks
everything.

## What is modelled

**Arithmetic.** Words are 32-bit with explicit wrap-around (`Words`). A finite
binary32 word is an integer coefficient of 2^-149 and a product one of 2^-298
(`Binary32`). `Nearest` states roundTiesToEven of IEEE 754-2019 (section 4.3.1)
with overflow (section 7.4) for any exact rational, and determines one result;
`RoundedSum` adds the sign of zero (section 6.3). The WGSL kernels are methods
and functions over words (`WideMagnitudes`, `FusedMultiplyAdd`, `Addition`,
`Multiplication`, `SumAccumulators`, `SumRounding`, `SumStages`), the Rust kernel
is over binary64 values that satisfy binary64's own rounding (`Binary64`,
`Midpoints`, `CpuFusedMultiplyAdd`), and the optimizer's coefficient conversion
is in `OptimizerCoefficient`.

**Completion protocol.** `ProgressWorld` is the shared memory together with every
atomic step a producer can take; between any two atomic operations of the
consumer an arbitrary schedule of such steps runs. `ProgressPaths` and
`ProgressSafety` treat the 32-ary directory of change bits, `AdmissionIndex` the
AVL index of active admissions as a tree and `LinkedAdmissions` as linked nodes
changed in place, `PendingSafety` the consumer's bookkeeping, and
`GpuProgress` has the consumer itself, with callbacks that may reenter it. One
completion's own header, its blocking read and its retirement are in
`SharedHeader` and `SharedCompletion`.

**Programs.** `Programs` gives lowered programs a meaning on contents alone;
`ProgramFormation` is the explicit-stack lowering of a shared value graph;
`LinearMemory` is the first-fit coalescing allocator; `InvocationUses`,
`InvocationState` and `CpuBackend` run a program in linear memory with last-use
release and rollback; `GpuPool` runs it in buffers reused by equal size;
`SessionMaterialization` forms, runs and records a demanded value, and
`SessionCompletion` gives up what it needed, with the owners of
`OutsideOwners`.

**Differentiation.** Tensors are over the integers (`Tensors`). `DerivativeGraph`
has the recipes and the forward derivative of each, `DerivativePlan` the
selection, `ReadyNodes` the priority heap, `DerivativeState` and
`GradientResources` the loop's invariants, `DerivativeExecution` the loop, and
`DerivativeGradients` and `DerivativeMeaning` what its results mean.

**Ownership and requests.** `Ownership` counts references between tensor
identities and history nodes, `SessionOwnership` retains, releases and collects
them, `ValueOwnership` does so for numerical values and their storage;
`Requests` and `RequestQueue` are execution requests and their queue.

**Nested lists.** `NestedLists`, `NestedReader` and `NestedWriter`.

Where the code and its comments differ the model follows the code. The
concurrent parts state their results for every interleaving, the rest for every
input that the source admits.

## Model

| member | source | states |
|---|---|---|
| Binary32.NearestIsClosest | src/backends/webgpu/kernels/fused-multiply-add.ts:3 | The reference rounding returns a magnitude to which no finite magnitude is closer |
| Binary32.RoundedSumUnique | src/backends/webgpu/kernels/fused-multiply-add.ts:3 | The specified result of a signed sum is one word |
| WideMagnitudes.SignificandProductExact | src/backends/webgpu/kernels/significand-product.ts:8-14 | Two 24-bit significands multiply exactly into two words |
| WideMagnitudes.LeftMagnitudeExact | src/backends/webgpu/kernels/fused-multiply-add.ts:10-15 | The two-word left shift multiplies by the power of two while it fits |
| WideMagnitudes.JamMagnitudeExact | src/backends/webgpu/kernels/fused-multiply-add.ts:17-27 | The two-word right shift is the integer jam: quotient with a sticky last bit |
| WideMagnitudes.RoundMagnitudeExact | src/backends/webgpu/kernels/fused-multiply-add.ts:51-59 | The final shift rounds the two-word magnitude half to even |
| Rounding.StickyRounds | src/backends/webgpu/kernels/fused-multiply-add.ts:7-9 | Jamming never moves a value across a rounding boundary: rounding the jammed integer rounds the exact one |
| FusedMultiplyAdd.FiniteFusedMultiplyAdd | src/backends/webgpu/kernels/fused-multiply-add.ts:64-105 | For finite nonzero factors the word is the exact sum rounded once, through cancellation, subnormals and overflow |
| FusedMultiplyAdd.FusedMultiplyAddBinary32 | src/backends/webgpu/kernels/fused-multiply-add.ts:107-123 | For all three words the kernel is fusedMultiplyAdd of section 5.4.1, specials and signed zeros included |
| Addition.ShiftRightJamExact | src/backends/webgpu/kernels/addition.ts:6-10 | The one-word jam is the integer jam for every distance |
| Addition.AddBinary32 | src/backends/webgpu/kernels/addition.ts:12-49 | For every pair of words the result is the exact sum rounded once |
| Multiplication.RoundProductExact | src/backends/webgpu/kernels/multiplication.ts:10-34 | Rounding the two-word product half to even, also when everything is shifted out |
| Multiplication.MultiplyBinary32 | src/backends/webgpu/kernels/multiplication.ts:36-70 | For every pair of words the result is the exact product rounded once, with its sign also on underflow |
| OptimizerCoefficient.RoundWideInteger | python/torch/optim.py:73-88 | An integer too wide for the significand is rounded half to even |
| OptimizerCoefficient.AlphaBits | python/torch/optim.py:63-95 | Refused exactly outside the supported range; otherwise the negated integer rounded once |
| SumAccumulators.Negate | src/backends/webgpu/kernels/sum.ts:20-28 | Two's-complement negation of a 320-bit accumulator |
| SumAccumulators.Merge | src/backends/webgpu/kernels/sum.ts:30-41 | Exact addition of accumulators whose sum fits, and the union of their flags |
| SumAccumulators.Decode | src/backends/webgpu/kernels/sum.ts:43-60 | A word becomes its exact coefficient, or its flag |
| SumRounding.Rounded | src/backends/webgpu/kernels/sum.ts:71-107 | An accumulator becomes its special result or its total rounded once |
| SumStages.LoadPartial | src/backends/webgpu/kernels/sum.ts:62-69 | An element is a decoded word in the first stage and a partial afterwards, nothing past the end |
| SumStages.Workgroup | src/backends/webgpu/kernels/sum.ts:109-124 | A workgroup's partial represents its 128 elements, whatever the halving order |
| SumStages.Sum | src/backends/webgpu/webgpu-backend.ts:306-335 | Any number of words below 2^32 is summed exactly through all stages and rounded once; the stage loop ends |
| SumStages.SumPermutes | src/backends/webgpu/kernels/sum.ts:3-18 | The result depends on the words only, not on their order or grouping |
| Binary64.RoundedIsNearest | crates/tabgrad-wasm-kernels/src/fused_multiply_add.rs:21-23 | The model of binary64 rounding returns a nearest representable value |
| Binary64.SumErrorRepresentable | crates/tabgrad-wasm-kernels/src/fused_multiply_add.rs:21-23 | The rounding error of a sum of representable values is representable |
| Binary64.TwoSumExact | crates/tabgrad-wasm-kernels/src/fused_multiply_add.rs:57-58 | The two-sum operations recover that error exactly, whichever operand is larger |
| Midpoints.CorrectedNearest | crates/tabgrad-wasm-kernels/src/fused_multiply_add.rs:21-46 | A residual changes the rounding only on a midpoint, and then its sign chooses the neighbour |
| CpuFusedMultiplyAdd.MidpointCorrect | crates/tabgrad-wasm-kernels/src/fused_multiply_add.rs:24-46 | High part and residual give the exact sum rounded once to binary32, the overflow tie included |
| CpuFusedMultiplyAdd.CompensatedSum | crates/tabgrad-wasm-kernels/src/fused_multiply_add.rs:64-75 | The rounded sum and exactly what its rounding lost |
| CpuFusedMultiplyAdd.FusedMultiplyAddCpu | crates/tabgrad-wasm-kernels/src/fused_multiply_add.rs:48-60 | The scalar kernel meets the GPU kernel's specification up to NaN payloads |
| CpuFusedMultiplyAdd.FusedMultiplyAddFour | crates/tabgrad-wasm-kernels/src/fused_multiply_add.rs:78-140 | Each of the four lanes does |
| CpuFusedMultiplyAdd.BackendsAgree | crates/tabgrad-wasm-kernels/src/fused_multiply_add.rs:48-60 | CPU and GPU agree bit for bit whenever either result is a number |
| AdmissionIndex.InsertValid | src/backends/webgpu/webgpu-active-admissions.ts:48-53 | Insertion keeps the tree ordered, balanced and exactly counted, one level higher at most |
| AdmissionIndex.InsertLookup | src/backends/webgpu/webgpu-active-admissions.ts:48-53 | It adds one active admission and changes no other |
| AdmissionIndex.RemoveValid | src/backends/webgpu/webgpu-active-admissions.ts:55-70 | Removal, with the successor taking the place of a node with two children, keeps the tree an AVL tree |
| AdmissionIndex.RemoveLookup | src/backends/webgpu/webgpu-active-admissions.ts:55-70 | It removes one admission and changes no other |
| AdmissionIndex.ActivateLookup | src/backends/webgpu/webgpu-active-admissions.ts:72-77 | Activation changes the activity of one admission |
| AdmissionIndex.NextIsNextAfter | src/backends/webgpu/webgpu-active-admissions.ts:79-83 | The search returns the active admission with the least id beyond the cursor, or none exists |
| AdmissionIndex.VisitsLinear | src/backends/webgpu/webgpu-active-admissions.ts:79-83 | It visits a number of nodes linear in the height |
| AdmissionIndex.HeightLogarithmic | src/backends/webgpu/webgpu-active-admissions.ts:34-46 | A tree of height h holds at least 2^(h/2) - 1 admissions |
| LinkedAdmissions.ActiveGpuAdmissions.RotateRight | src/backends/webgpu/webgpu-active-admissions.ts:20-25 | Relinking two nodes in place turns the tree they form into its rotation and touches no other node |
| LinkedAdmissions.ActiveGpuAdmissions.RotateLeft | src/backends/webgpu/webgpu-active-admissions.ts:27-32 | The mirror image |
| LinkedAdmissions.ActiveGpuAdmissions.Balance | src/backends/webgpu/webgpu-active-admissions.ts:34-46 | The nodes below come to form the balanced tree |
| LinkedAdmissions.ActiveGpuAdmissions.Insert | src/backends/webgpu/webgpu-active-admissions.ts:48-53 | The linked nodes come to form the tree with the new admission |
| LinkedAdmissions.ActiveGpuAdmissions.Remove | src/backends/webgpu/webgpu-active-admissions.ts:55-70 | The linked nodes come to form the tree without the admission |
| LinkedAdmissions.ActiveGpuAdmissions.Replace | src/backends/webgpu/webgpu-active-admissions.ts:60-67 | The successor found by the loop takes over both subtrees of the removed node |
| LinkedAdmissions.ActiveGpuAdmissions.Activate | src/backends/webgpu/webgpu-active-admissions.ts:72-77 | The activity changes in place, with every count above it |
| LinkedAdmissions.ActiveGpuAdmissions.Next | src/backends/webgpu/webgpu-active-admissions.ts:79-83 | The search over links finds what the search of the tree does |
| LinkedAdmissions.ActiveGpuAdmissions.Add | src/backends/webgpu/webgpu-active-admissions.ts:90-94 | A new admission is active and the others are as before |
| LinkedAdmissions.ActiveGpuAdmissions.Delete | src/backends/webgpu/webgpu-active-admissions.ts:96-101 | A deleted admission is gone and the others are as before |
| LinkedAdmissions.ActiveGpuAdmissions.SetActive | src/backends/webgpu/webgpu-active-admissions.ts:103-107 | Only the activity of a known admission changes |
| LinkedAdmissions.ActiveGpuAdmissions.NextAfter | src/backends/webgpu/webgpu-active-admissions.ts:109 | The next active admission beyond the cursor |
| ProgressWorld.StepSucceeds | src/backends/webgpu/worker.ts:83-123 | No single step of a producer loses a completion that the consumer has not noticed |
| ProgressWorld.StepKeeps | src/backends/webgpu/webgpu-progress-notification.ts:28-53 | Every step of every producer keeps the words and the requests' marks in agreement |
| ProgressWorld.RunKeeps | src/backends/webgpu/webgpu-progress-notification.ts:28-53 | So does every run of them |
| ProgressWorld.SharedMemory.Yield | src/backends/webgpu/webgpu-progress-notification.ts:28-53 | Between two atomic operations of the consumer anything the producers do preserves what it has established |
| GpuProgress.GpuProgressNotifications.Add | src/backends/webgpu/webgpu-progress-notification.ts:66-98 | A value gets its own path of eleven linked bits; if there is no room for one of its branches the directory is as it was |
| GpuProgress.GpuProgressNotifications.Delete | src/backends/webgpu/webgpu-progress-notification.ts:100-114 | A path goes; linked are then exactly the branches on the way to what is still enrolled |
| GpuProgress.GpuProgressNotifications.Collect | src/backends/webgpu/webgpu-progress-notification.ts:116-124 | Under concurrent marking every value fully marked at the start is reported, none twice, and the collection ends |
| GpuProgress.GpuProgressNotifications.Walk | src/backends/webgpu/webgpu-progress-notification.ts:126-145 | Below a branch every value marked at least up to it is reported |
| GpuProgress.GpuProgressNotifications.TakeSlot | src/backends/webgpu/webgpu-progress-notification.ts:126-145 | A taken leaf bit is reported, or marked again if it was reported before |
| GpuProgress.GpuProgressNotifications.ClearAndRecheck | src/backends/webgpu/webgpu-progress-notification.ts:126-145 | Clearing a parent bit and checking its child again leaves no mark unreachable; if no step falls in between, a bit stays set exactly above a nonempty child |
| GpuProgress.PendingGpuCompletions.Add | src/backends/webgpu/webgpu-pending-completions.ts:41-47 | A new completion is live and, in an ordered index, active; the consumer's invariant is kept |
| GpuProgress.PendingGpuCompletions.HandleFailure | src/backends/webgpu/webgpu-pending-completions.ts:49-71 | A failed completion that has not drained is enrolled for notices or always inspected, unless it is gone by then, whatever its subscription comes back to before it is sent or fails |
| GpuProgress.PendingGpuCompletions.SendSubscription | src/backends/webgpu/webgpu-pending-completions.ts:60-70 | The subscription may come back to the list and may fail before or after that; once it has failed the completion is not enrolled, and always inspected unless it is gone |
| GpuProgress.PendingGpuCompletions.Delete | src/backends/webgpu/webgpu-pending-completions.ts:73-84 | A deleted completion leaves every set, the index and the directory |
| GpuProgress.PendingGpuCompletions.Changed | src/backends/webgpu/webgpu-pending-completions.ts:150-154 | A notified completion becomes active unless a publication of it is still going on |
| GpuProgress.PendingGpuCompletions.Refresh | src/backends/webgpu/webgpu-shared-completion.ts:57-91 | A completion whose outcome and drain are visible is retired by its refresh |
| GpuProgress.PendingGpuCompletions.Checkpoint | src/backends/webgpu/webgpu-pending-completions.ts:86-122 | The selective scan refreshes in admission order everything whose inspection could matter |
| GpuProgress.PendingGpuCompletions.AdvanceTerminal | src/backends/webgpu/webgpu-pending-completions.ts:128-137 | After retirement of the connection everything beyond the cursor is refreshed in order |
| GpuProgress.PendingGpuCompletions.CloseCheckpoint | src/backends/webgpu/webgpu-pending-completions.ts:156-168 | Leaving the outermost checkpoint deactivates only what need not be inspected |
| GpuProgress.PendingGpuCompletions.Advance | src/backends/webgpu/webgpu-pending-completions.ts:86-122 | Whatever the interleaving, every completion that the full scan would retire is refreshed in admission order or gone |
| PendingSafety.DrainNoticed | src/backends/webgpu/webgpu-pending-completions.ts:49-71 | A live failed completion that has drained is active for inspection or marked along its whole path |
| SharedHeader.MoveKeeps | src/backends/webgpu/webgpu-shared-completion.ts:123-151 | Every move of every thread keeps a visible success drained, with its payload in place |
| SharedHeader.MoveLater | src/backends/webgpu/webgpu-connection.ts:63-71 | Whatever becomes visible is followed by a pulse and a notification still to come |
| SharedHeader.Connection.Wait | src/backends/webgpu/webgpu-shared-completion.ts:110-121 | A reader that stays asleep has nothing to see, or a notification is still to come |
| SharedCompletion.SharedGpuCompletion.Inspect | src/backends/webgpu/webgpu-shared-completion.ts:57-74 | What is taken over was published; a success is drained |
| SharedCompletion.SharedGpuCompletion.Refresh | src/backends/webgpu/webgpu-shared-completion.ts:57-91 | Retirement happens once, under callbacks that come back to the completion; after it every registered callback has been made once or is about to be |
| SharedCompletion.SharedGpuCompletion.OnDrained | src/backends/webgpu/webgpu-shared-completion.ts:50-55 | A callback is registered once more, or made at once after retirement |
| SharedCompletion.SharedGpuCompletion.Read | src/backends/webgpu/webgpu-shared-completion.ts:110-121 | A read returns the outcome, and never stays asleep through a publication or the retirement of the connection |
| LinearMemory.LinearMemoryAllocator.Allocate | src/backends/cpu/linear-memory.ts:64-113 | The range plain first fit chooses, at the end if none fits, or exhaustion exactly when there is none, which changes nothing; live ranges and free segments partition memory |
| LinearMemory.LinearMemoryAllocator.Release | src/backends/cpu/linear-memory.ts:115-131 | The range goes back to its place among the free segments and joins the neighbours it touches, the end stays; a second release, or one of another generation, changes nothing |
| LinearMemory.LinearMemoryAllocator.TakeFree | src/backends/cpu/linear-memory.ts:64-100 | The cached size bound never changes what the search would find |
| LinearMemory.LinearMemoryAllocator.FindPlace | src/backends/cpu/linear-memory.ts:162-195 | The place of an address among the free segments |
| LinearMemory.LinearMemoryAllocator.JoinSegments | src/backends/cpu/linear-memory.ts:162-195 | Insertion joins exactly the segments that the range touches |
| ProgramFormation.FormExecutableProgram | src/runtime/program-formation.ts:65-134 | From any admitted graph the traversal ends with every needed value lowered once, in dependency order, and nothing but what the demanded value depends on |
| ProgramFormation.Turn | src/runtime/program-formation.ts:65-134 | One turn of the stack keeps the lowering faithful and comes closer to the end |
| ProgramFormation.FormedWellFormed | src/runtime/program-formation.ts:65-134 | Formed programs use every operand after it is ready |
| ProgramFormation.FormedMeaning | src/runtime/program-formation.ts:65-134 | Evaluating the formed program gives every value, aliases included, its recursive meaning |
| InvocationUses.CountUses | src/execution/executable-program.ts:120-142 | The occurrences of every slot, and of every storage over all its aliases |
| CpuBackend.MakeProgram | src/execution/executable-program.ts:113-145 | A program with its use counts |
| CpuBackend.InvocationStorage.CompleteInputUse | src/backends/cpu/invocation-storage.ts:33-42 | One use less of a storage; the last use releases what is not borrowed or retained |
| CpuBackend.InvocationStorage.Rollback | src/backends/cpu/invocation-storage.ts:44-50 | After rollback the live allocations are those from before |
| CpuBackend.WebAssemblyCpuBackend.Execute | src/backends/cpu/cpu-backend.ts:82-222 | A failure at any step, even one that leaves part of an output written, leaves exactly the earlier allocations; a success leaves the borrowed, retained and never read slots, each holding its evaluation; no operand is overwritten |
| CpuBackend.FormedExecution | src/backends/cpu/cpu-backend.ts:82-222 | Running a formed program on the CPU leaves in every slot returned the recursive meaning of its values |
| GpuPool.WebGpuBackend.EncodeExecution | src/backends/webgpu/webgpu-backend.ts:203-255 | With buffers of equal size reused after their last use every computation reads its operands' evaluations |
| GpuPool.WebGpuBackend.Execute | src/backends/webgpu/webgpu-backend.ts:191-255 | A success keeps the borrowed, retained and never read buffers with their evaluations; a failure keeps the earlier buffers |
| GpuPool.FormedBindings | src/backends/webgpu/webgpu-backend.ts:203-217 | What formation binds satisfies what the GPU asks of bindings |
| GpuPool.FormedExecution | src/backends/webgpu/webgpu-backend.ts:191-255 | Running a formed program in reused buffers leaves in every buffer returned the recursive meaning of its values |
| SessionMaterialization.MeaningKept | src/runtime/runtime.ts:2564-2589 | Recording what a run returned changes the meaning of no value of the session |
| SessionMaterialization.RetainedSlots | src/runtime/runtime.ts:2553-2562 | A storage is retained exactly if it can be captured as a scalar projection or has more references than the program's own uses |
| SessionMaterialization.RootHeld | src/runtime/runtime.ts:2591-2598 | No operand shares the storage of the demanded value, so that it is among the results |
| SessionMaterialization.Materialize | src/runtime/runtime.ts:2546-2589 | From formation to recording: every value of the session keeps its meaning; the demanded value, every storage owned outside the program and every capturable one are resident; live allocations stay one for each recorded payload; a refusal leaves the earlier allocations |
| OutsideOwners.OutsideReferences | src/runtime/runtime.ts:2553-2562 | With the session's counts, a storage has more references than the program's own uses if and only if a caller, or the producer of a storage that the program does not compute, refers to it |
| SessionCompletion.StillOwned | src/runtime/runtime.ts:2610-2617 | Once the results have given up their producers, a storage is in use only if it had such an owner |
| SessionCompletion.RemainingMeaning | src/runtime/runtime.ts:2517-2526 | Giving up the producers of results and whatever nobody refers to then changes the meaning of no value still in use |
| SessionCompletion.MaterializeValue | src/runtime/runtime.ts:2546-2602 | The whole materialization: every value still in use means what it meant, the demanded one is resident, what became resident has no producer any more, and the backend's live allocations are the payloads of the storages in use, one each; a refusal changes nothing |
| SessionCompletion.ReleaseReference | src/runtime/runtime.ts:2470-2503 | A released reference takes away exactly what nobody refers to any more: the rest means what it meant, and live allocations and payloads in use stay one to one |
| Tensors.MatMulLeftDual | src/runtime/autograd/derivative-recipes.ts:34-59 | Multiplying by the right operand transposed is the transpose of the product in its left operand |
| Tensors.MatMulRightDual | src/runtime/autograd/derivative-recipes.ts:34-59 | Multiplying by the left operand transposed is the transpose of the product in its right operand |
| DerivativeGraph.LocalAdjoint | src/runtime/autograd/derivative-recipes.ts:5-96 | Every recipe applies the transpose of its operation's forward derivative |
| DerivativePlan.MakePlan | src/runtime/autograd/derivative-history.ts:221-248 | Exactly the nodes between the output and the targets, each once, the output last; refused exactly when a request was not used |
| DerivativePlan.SelectedParent | src/runtime/runtime.ts:1437-1440 | Every selected node but the output is an input of a selected node |
| ReadyNodes.TopHighest | src/runtime/autograd/derivative-history.ts:30-61 | The top of the heap has the highest priority |
| ReadyNodes.ReadyDerivativeNodes.Push | src/runtime/autograd/derivative-history.ts:33-43 | The heap stays ordered and holds one more node |
| ReadyNodes.ReadyDerivativeNodes.Pop | src/runtime/autograd/derivative-history.ts:45-60 | A node of highest priority is taken out and the heap stays ordered |
| DerivativeState.ReadyHolds | src/runtime/autograd/derivative-history.ts:275-277 | A node is ready only with its whole gradient |
| DerivativeState.SomethingReady | src/runtime/autograd/derivative-history.ts:275-302 | The loop ends only when every selected node has been processed |
| DerivativeExecution.CountPending | src/runtime/autograd/derivative-history.ts:263-267 | Each node waits for as many contributions as it has selected edges |
| DerivativeExecution.DerivativeHistory.Execute | src/runtime/autograd/derivative-history.ts:251-323 | Every selected node is received once, after everything that passes to it, with its gradient; unless an operation fails the run completes exactly if no executed recipe is consumed or stale; at every exit all temporaries are closed, each once, and only the results stay open; the allocation bound holds throughout |
| DerivativeExecution.DerivativeHistory.PassBack | src/runtime/autograd/derivative-history.ts:285-303 | All edges of a node pass their contributions and count as arrived |
| DerivativeExecution.DerivativeHistory.Contribute | src/runtime/autograd/derivative-history.ts:288-299 | A contribution is combined with what is there and the replaced temporaries are closed; if an operation fails nothing is lost track of |
| DerivativeExecution.GradientBytes | src/runtime/runtime.ts:1425-1443 | The reserved bytes cover every contribution, combination and prior-gradient addition of one run |
| DerivativeMeaning.GradientIsPathSum | src/runtime/autograd/derivative-history.ts:250-323 | The gradient of a node is the sum over all paths from the output |
| DerivativeMeaning.Adjoint | src/runtime/autograd/derivative-history.ts:250-323 | Reverse accumulation is the transpose of the forward derivative of the whole graph |
| SessionOwnership.TensorSession.ReleaseIdentity | src/runtime/runtime.ts:2314-2369 | One reference less, never below zero; what nobody refers to is retired with all that it owned, and nothing else changes |
| SessionOwnership.TensorSession.RetireOne | src/runtime/runtime.ts:2332-2365 | The identity is retired and gives up its gradient, its base and its history; what this frees is retired next, in the order of being freed, the gradient before the base |
| SessionOwnership.TensorSession.ReleaseHistory | src/runtime/autograd/derivative-history.ts:184-204 | A node nobody refers to gives up its inputs and its leaf |
| SessionOwnership.TensorSession.Record | src/runtime/autograd/derivative-history.ts:143-170 | A new node owns a reference to each input; a first use owns the leaf; nothing else changes but counts |
| SessionOwnership.TensorSession.Leaf | src/runtime/autograd/derivative-history.ts:132-141 | The history node of a leaf is owned by nobody until it is used |
| SessionOwnership.TensorSession.Create | src/runtime/runtime.ts:2289-2308 | A new identity owns its base and takes over its history; a leaf is no view and has neither; the links among identities and histories stay acyclic |
| SessionOwnership.TensorSession.ReplaceEntry | src/runtime/runtime.ts:1795-1838 | A write, a rebased view or a detachment exchanges the history of an identity: its reference moves, the old history is given up and everything still reached stays whole |
| SessionOwnership.EntryReplaced | src/runtime/runtime.ts:1795-1838 | Exchanging a history keeps the counts exact if and only if the identity is not a leaf or nothing is exchanged: a write to a leaf whose tracking was switched off breaks them |
| SessionOwnership.LeafEntryFails | src/runtime/runtime.ts:1795-1838 | The counts of a leaf that a recorded write has given another history are wrong |
| SessionOwnership.TensorSession.Expose | src/runtime/runtime.ts:2298-2308 | The open canonical handle if it is still held, or one more exposed handle and one more reference |
| SessionOwnership.TensorSession.RegisterOptimizer | src/runtime/runtime.ts:879-921 | An optimizer refers to each of its parameters once for every occurrence |
| SessionOwnership.TensorSession.CaptureGradient | src/runtime/runtime.ts:998-1008 | The present gradient of a parameter becomes a root until its scope ends |
| SessionOwnership.TensorSession.RetireCapture | src/runtime/runtime.ts:1047-1060 | The end of a scope gives up exactly its captures and preserves everything still reachable |
| SessionOwnership.TensorSession.RetireOptimizer | src/runtime/runtime.ts:1062-1079 | A closed optimizer gives up exactly its captures and its occurrences and preserves everything still reachable |
| SessionOwnership.TensorSession.ReleaseHandle | src/runtime/runtime.ts:2282-2287 | Closing a handle preserves everything still reachable, and schedules a pass if associations are left |
| SessionOwnership.TensorSession.ReplaceGradient | src/runtime/runtime.ts:1311-1321 | The association moves its reference; apart from that objects only die, and everything still reachable stays whole |
| SessionOwnership.TensorSession.Mark | src/runtime/runtime.ts:2392-2417 | Exactly what exposures, optimizers and captures reach is marked |
| SessionOwnership.TensorSession.CollectCycles | src/runtime/runtime.ts:2388-2434 | After a pass that is due exactly what exposures, optimizers and captures reach is alive, and it owns what it did |
| Ownership.AnchorsDescend | src/runtime/tensor-family.ts:44-58 | Base and history references never form a cycle, whichever histories identities have been given: they go down in a rank that every object has |
| Ownership.ExactlyReachable | src/runtime/runtime.ts:2418-2433 | Cutting gradient associations and counting leave alive exactly what can be reached |
| SessionOwnership.NothingToCollect | src/runtime/runtime.ts:2378-2385 | Without gradient associations counting alone leaves alive exactly what can be reached, so that no pass need be scheduled |
| SessionOwnership.TensorSession.Close | src/runtime/runtime.ts:2227-2256 | Closing retires optimizers, handles and cycles until nothing is alive |
| ValueOwnership.SessionValues.RetainValue | src/runtime/runtime.ts:2448-2468 | One more reference to a value and to its storage |
| ValueOwnership.SessionValues.BorrowValue | src/runtime/runtime.ts:1746-1755 | Another value over a storage in use has one reference, and its storage one more |
| ValueOwnership.SessionValues.ReleaseValue | src/runtime/runtime.ts:2470-2503 | Counts stay exact; each storage that loses its last reference gives back its payload once and gives up its producer's inputs; the others keep theirs |
| ValueOwnership.SessionValues.ReleaseDependencies | src/runtime/runtime.ts:2517-2526 | A materialized result gives up its producer's inputs and keeps its payload; what that leaves unused gives back its payload once |
| ValueOwnership.SessionValues.ReleaseCompletedDependencies | src/runtime/runtime.ts:2610-2617 | All results of a program give up their producers; a storage still in use loses nothing else, and what is left unused gives back its payload once |
| ValueOwnership.SessionValues.Admit | src/runtime/runtime.ts:2436-2446 | A new value owns a reference to each input of its producer |
| ValueOwnership.NothingLeaks | src/runtime/runtime.ts:2470-2503 | A storage is in use exactly if a chain of producers leads to it from an owner outside |
| Requests.SettledRight | src/runtime/execution-request.ts:58-82 | A request settles with what its routine comes to when fed the result of every step |
| RequestQueue.Terminal | src/runtime/execution-request.ts:116-131 | At any time exactly the published requests are settled, in admission order, each with that outcome |
| RequestQueue.RetiredDrained | src/runtime/execution-request.ts:103-114 | A request retires at most once, and only after every ticket it yielded has drained |
| RequestQueue.RuntimeRequests.Advance | src/runtime/execution-request.ts:58-82 | The first request runs to its next step or is published next; requests that its routine admits meanwhile wait behind |
| RequestQueue.RuntimeRequests.Settle | src/runtime/execution-request.ts:103-114 | Publication unlinks the request, resolves its promise and registers its undrained tickets |
| RequestQueue.RuntimeRequests.AdvanceRequests | src/runtime/runtime.ts:2653-2665 | Afterwards the first request waits, if there is one; a call made while the queue is being advanced changes nothing |
| RequestQueue.RuntimeRequests.DeliverResult | src/runtime/execution-request.ts:84-101 | A delivered result resumes exactly the pending step that asked for it; a stale one changes nothing, whatever step is pending now |
| RequestQueue.RuntimeRequests.DeliverResults | src/runtime/execution-request.ts:84-101 | Delivering whatever has been asked for, in any order and with what is asked for meanwhile, ends, and publishes every request that is mandatory or awaited and has only such before it |
| RequestQueue.RuntimeRequests.AdvanceSynchronously | src/runtime/execution-request.ts:116-131 | Reads on until the request is settled or waits for something that cannot be read |
| RequestQueue.RuntimeRequests.DriveSynchronously | src/runtime/runtime.ts:2110-2114 | Afterwards only something that cannot be read is waited for |
| RequestQueue.RuntimeRequests.Enqueue | src/runtime/runtime.ts:2624-2651 | A request is admitted behind the others and started if it is the first, also from inside a running routine |
| RequestQueue.RuntimeRequests.StartAsyncProgress | src/runtime/execution-request.ts:133-138 | A running request is marked mandatory and its pending step is observed, asked for once; a settled one is left alone |
| RequestQueue.RuntimeRequests.AsPromise | src/runtime/execution-request.ts:147-161 | The outcome of a settled request, or a promise that its settling resolves, for which the pending step is observed |
| RequestQueue.RuntimeRequests.DeliverDrain | src/runtime/execution-request.ts:164-172 | A drained ticket is taken off its own request and no other, and the last one retires it |
| RequestQueue.RuntimeRequests.DeliverDrains | src/runtime/execution-request.ts:164-172 | When every drained ticket has been told, exactly the published requests whose tickets have all drained have retired, each once |
| NestedReader.InputBuffer | python/torch/__init__.py:481-527 | Accepts exactly the rectangular nested lists, none of which contains itself, with their shape and row-major numbers; a reported cycle is there; the loop ends on every heap of lists |
| NestedReader.AppendNumericValues | python/torch/__init__.py:473-478 | A row is appended exactly if it holds numbers only |
| NestedReader.RectangularAcyclic | python/torch/__init__.py:495-509 | Lists that form a rectangle do not contain themselves |
| NestedWriter.NestedValues | python/torch/__init__.py:530-554 | Rebuilds the nesting of any shape, empty dimensions included, around the values in order |
| NestedLists.ShapeUnique | python/torch/__init__.py:495-509 | Nested lists have at most one shape |
| NestedWriter.RoundTrip | python/torch/__init__.py:481-554 | Writing and reading gives the values and the shape back exactly if no dimension but the last is zero |

## Left out

- ActiveGpuAdmissions: nodes are kept and linked under their ids rather than by references.
- GpuProgressNotifications: a directory that has become empty is used on rather than made anew; completions are named by their admission number.
- PendingGpuCompletions: the stores of result length and payload, and the pulses that wake a sleeping reader, are not steps of this protocol; they are in SharedHeader.
- SharedGpuCompletion: the promise of the drain, failures of decoding, and the encoding of diagnostics; all successes of one completion carry the same value.
- LinearMemoryAllocator: growth of WebAssembly memory is a step that succeeds or fails; alignment is integer rounding up.
- WebAssemblyCpuBackend: loading, hashing and instantiation, and the kernels themselves, whose results are a parameter; a kernel call may fail after writing any part of its own output.
- WebGpuBackend: devices, pipelines and error scopes; commands take effect in the order encoded; the partial buffers of a staged sum are created without contents of their own.
- CountUses: the validation of matrix shapes, strides and coefficients in the same constructor.
- CpuFusedMultiplyAdd: hardware binary64 is its rounding contract, SIMD lanes are elements of sequences.
- Execute: a recipe is one operation, which succeeds or fails; payloads count as one allocation for each contribution, combination and addition to an earlier gradient; writer outcomes are not modelled.
- Expose: whether the weak reference still leads to an open canonical handle is a parameter.
- ReplaceEntry: only identities that are no leaves; what happens to a leaf is in EntryReplaced.
- RegisterOptimizer: an optimizer is the list of its occurrences, without groups and handles.
- CollectCycles: the pins of numerical values, which are counted apart in ValueOwnership; scalar projections, families, exposure warnings and writer outcomes; cleanup does not fail.
- RetainValue: a scalar projection that nobody has owned yet is no value of the model yet; Admit retains it first.
- RetainedSlots: which values can be captured as scalar projections is a parameter.
- MaterializeValue: the cache of projection inputs; nobody takes or gives up a reference while the program runs.
- RuntimeRequests: a routine does not read requests while it runs, and callbacks do not throw.
- InputBuffer: the rounding of Python numbers to binary32.
- Messages, promises of the host, finalizers, weak references, diagnostics, metrics and timings.
- Shape, dtype, device and closed-handle validation of the public operations, and the elementwise, expansion and reduction kernels in Rust.
