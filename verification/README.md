# A Dafny model of the renderer-wrapper audio engine

This project models the core of a browser player for ambisonic ("werck") recordings. It covers two layers:

- **The Omnitone renderer** that the player embeds. This layer includes:
  - the first- and higher-order binaural renderers;
  - their channel router, rotators and convolvers;
  - the HRIR loader (`BufferList`);
  - the channel-wise buffer merge.
- **The player's own layers.** These are:
  - the engine wrapper `OmnitoneWrapper`, which is a lifecycle over disposed, initialized, buffer-loaded and stream-bound states;
  - the quaternion adapters between the head tracker's, WebGPU's, AmbiX's and Omnitone's axis conventions;
  - the spherical-harmonics helpers of the visualiser;
  - the buffer-mode transport `AudioTransportBuffer`.

The model is written in plain Dafny:

- Web Audio nodes are opaque identities, and the audio graph is a set of connection edges `(src, srcOutput, dst, dstInput)`.
- Every JavaScript call is a pure transition. A call that throws, or whose promise rejects, returns the state it leaves together with the error (`Outcomes.Step`).
- Asynchronous work arrives as events: HRIR decoding, chunk fetching, the HRIR promise, a source's natural end and the ended callback. `initialize()` is split at its awaits into continuations (`OmnitoneWrapper.ContextArrived`, `RendererArrived`), so a `dispose()` between them can be composed in. Time arrives as a parameter.
- The transcendental functions (`Math.sqrt`, `sin`, `cos`, `pow`, `PI`) are a record of function parameters (`RealMath.Math`). Only the laws a proof needs are stated as preconditions.

Modules, one concept each:

| module | models |
|---|---|
| `Outcomes` | `Option`, `Result`, and `Step` (state plus thrown error) |
| `RealMath` | the transcendental functions as parameters |
| `AudioGraph` | `connect`, `disconnect()`, and WebIDL `unsigned long` index conversion |
| `Acn` | ACN channel numbering and centred block addressing |
| `Matrices` | 3x3 and 4x4 rotation arrays, the 3x3 block, and the sign flip |
| `AudioBuffers` | `Utils.mergeBufferListByChannel` |
| `BufferLists` | `BufferList`: task counter, settle and abort |
| `FoaRouter` | `FOARouter` |
| `FoaRotator` | `FOARotator` |
| `HoaRotator` | `HOARotator`, `setCenteredElement` and `computeHOAMatrices` |
| `Convolvers` | `FOAConvolver`, `HOAConvolver` |
| `Renderers` | `FOARenderer`, `HOARenderer` |
| `Quaternions` | `quaternionAdapters.js` |
| `WrapperStatics` | `OmnitoneWrapper.volumeToGain`, `quaternionToRotationMatrix3` |
| `SphericalHarmonics` | `sphericalHarmonics.js` |
| `OmnitoneWrapper` | the engine wrapper |
| `TransportBuffer` | `audioTransportBuffer.js` |

Where the source has an evident bug, two definitions are kept side by side. One models the code as written: it carries the source's name, or `AsWritten` where the plain name is taken by the intended behaviour. The other models the evident intent: it carries `Corrected`, or the plain name. A lemma exhibits the discrepancy (see "## Findings"). The wrapper's operations named after source methods compose the as-written definitions, and its `Corrected` members compose the corrected ones.

## Model

| member | source | states |
|---|---|---|
| AudioGraph.DisconnectAllIdempotent | public/js/omnitone.esm.js:776-779 | disconnecting twice equals disconnecting once, and afterwards the node has no outgoing edge |
| AudioGraph.DisconnectAllIsLocal | public/js/omnitone.esm.js:776-779 | disconnecting one node leaves every other node's outgoing edges unchanged |
| AudioGraph.UnsignedLong | public/js/omnitone.esm.js:387-397 | the index conversion lands in [0, 2^32) and is the identity on that range |
| AudioGraph.ConnectChecked | public/js/omnitone.esm.js:387-397 | connect throws IndexSizeError, adding nothing, exactly when the converted input index is at or past the node's input count; otherwise it connects at the converted index |
| Acn.BandBracket | public/js/omnitone.esm.js:737-739 | channel acn lies between the squares of its band and the next band, so band l owns channels l*l .. l*l+2l |
| Acn.BandUnique | public/js/omnitone.esm.js:737-739 | the square bracket of a channel determines its band uniquely |
| Acn.Index | public/js/omnitone.esm.js:737-739 | an in-band (l, m) lands in band l's bracket [l^2, (l+1)^2) (partners: IndexRoundTrip, DecodeRoundTrip) |
| Acn.IndexRoundTrip | public/js/omnitone.esm.js:737-739 | decoding `acnIndex = l*l + l + m` gives back (l, m) for every -l <= m <= l |
| Acn.DecodeRoundTrip | public/js/omnitone.esm.js:737-739 | every channel number is the ACN of its own (band, degree) pair, and that degree lies in its band |
| Acn.IndexCoversOrder | public/js/omnitone.esm.js:737-739 | every (l, m) of the loops up to the order yields a channel in [0, (order+1)^2) |
| Acn.BandOfChannelWithinOrder | public/js/omnitone.esm.js:737-739 | every channel below (order+1)^2 belongs to a band up to the order |
| Acn.IndexInjective | public/js/omnitone.esm.js:737-739 | distinct (l, m) pairs give distinct channels, so the loops reach each channel exactly once |
| Acn.CenteredIndex | public/js/omnitone.esm.js:784-791 | the address of an in-band entry lies inside the (2l+1)^2 block (partners: CenteredIndexRoundTrip, CenteredIndexOnto) |
| Acn.CenteredIndexRoundTrip | public/js/omnitone.esm.js:784-791 | the centred address `(j+l)(2l+1)+(i+l)` of every in-band entry lies inside the band's block, and its row and column decode back to (i, j) |
| Acn.CenteredIndexOnto | public/js/omnitone.esm.js:784-791 | every index of the (2l+1)^2 block is the centred address of exactly the in-band entry it decodes to |
| Acn.BandOfBlockOffset | public/js/omnitone.esm.js:881-889 | the rotator's channels l*l + j for j < 2l+1 all belong to band l |
| Matrices.BlockSlotInverse | public/js/omnitone.esm.js:463-473 | the 16-entry positions 0,1,2,4,5,6,8,9,10 and the nine 3x3 slots are in one-to-one correspondence |
| Matrices.BlockEmbedRoundTrip | public/js/omnitone.esm.js:463-493 | taking the block of an embedding gives the 3x3 matrix back; embedding a block keeps the block entries and zeroes the other seven |
| Matrices.ApplyIdentity | public/js/omnitone.esm.js:400-451 | the identity matrix fixes every vector |
| Matrices.FlipInvolution | public/js/omnitone.esm.js:903-952 | the rotator's band-1 sign pattern undoes itself, so get undoes set |
| Matrices.FlipIsShimProduct | public/js/omnitone.esm.js:903-914 | the sign pattern negates rows 0 and 2, which is left multiplication by diag(-1, 1, -1) |
| Matrices.ApplyShim | public/js/omnitone.esm.js:400-451 | diag(-1, 1, -1) negates the first and last coordinates |
| AudioBuffers.MergeByChannel | public/js/omnitone.esm.js:126-157 | with the engine's channel limit as a parameter (at least 32): merging yields a buffer iff every check passes and the total is within the engine limit; the result has the first buffer's length and sample rate and the summed channel count; an empty list throws TypeError; a list that passes every check but exceeds the engine limit throws createBuffer's NotSupportedError; any other failure carries the error of the first failing check |
| AudioBuffers.StackedChannelOrigin | public/js/omnitone.esm.js:147-155 | channel (channels before chunk i) + j of the merge is channel j of chunk i |
| AudioBuffers.MergeBufferListByChannel | public/js/omnitone.esm.js:126-157 | the two loops of the source, checking and then creating and copying, compute exactly the reference merge, including createBuffer's NotSupportedError above the engine limit, and a merged buffer is well formed |
| AudioBuffers.MergedWellFormed | public/js/omnitone.esm.js:126-157 | every successful merge is itself a well-formed buffer, with all channels of the common length |
| AudioBuffers.MergeEntries | public/js/omnitone.esm.js:126-146 | the merge of a loader's list, whose entries may be null: without nulls it is the merge; with a null it throws, never NotSupportedError, and TypeError when the first entry is null; a merged buffer is well formed and within the engine limit |
| AudioBuffers.MergeEntriesChecksBeforeNull | public/js/omnitone.esm.js:130-146 | the checks run in list order, so a length mismatch before a null entry is reported instead of the null |
| AudioBuffers.MergeEntriesNullRaisesTypeError | public/js/omnitone.esm.js:130-146 | a null entry after a valid one throws TypeError |
| AudioBuffers.MergeAdmitsMoreThanMaxChannels | public/js/omnitone.esm.js:130-148 | a 32-channel and a 16-channel buffer pass every check although their total is 48: the 32-channel guard is bypassed, and the outcome is left to createBuffer, which gives 48 channels on an engine that allows them and NotSupportedError otherwise |
| AudioBuffers.MergeByChannelCorrected | public/js/omnitone.esm.js:130-146 | with the limit checked on the final total, the merge succeeds iff every check passes and the total is at most 32; its result is well formed with at most 32 channels; an over-limit list throws TooManyChannels and never NotSupportedError; an empty list throws TypeError |
| AudioBuffers.CorrectedMergeAgrees | public/js/omnitone.esm.js:130-146 | a list that passes every check is within the limit before its last chunk; within the limit the corrected merge equals the as-written one on every engine; whenever the as-written merge throws, so does the corrected one |
| BufferLists.ChooseDataType | public/js/omnitone.esm.js:190-219 | URL loading is chosen iff the option is exactly "url"; anything else is base64 |
| BufferLists.ResolvedArray | public/js/omnitone.esm.js:333-351 | the resolved list has one slot per task, holding the stored entry or null |
| BufferLists.Resolve | public/js/omnitone.esm.js:235-253 | the promise resolves only while pending; once settled it keeps its outcome |
| BufferLists.Reject | public/js/omnitone.esm.js:235-253 | the promise rejects only while pending; once settled it keeps its outcome |
| BufferLists.Load | public/js/omnitone.esm.js:220-268 | after `load()` every task is outstanding, nothing is stored, and the promise is pending; URL mode has one open request per task and base64 mode has none |
| BufferLists.TaskIds | public/js/omnitone.esm.js:235-253 | the launched task ids are exactly 0 .. n-1 |
| BufferLists.UpdateProgress | public/js/omnitone.esm.js:333-351 | a report is ignored once settled or aborted; otherwise it stores the entry and decrements the counter; it resolves with the stored list exactly when it brings the counter from 1 to 0; a settled promise never changes |
| BufferLists.AbortLoad | public/js/omnitone.esm.js:352-372 | the effective abort is idempotent; the first abort aborts every open request, rejects a pending promise and zeroes the counter, while keeping the stored entries and the settled flag |
| BufferLists.AbortedRequests | public/js/omnitone.esm.js:352-372 | abort cancels only open requests, and none once already aborted |
| BufferLists.Apply | public/js/omnitone.esm.js:254-351 | as written: a success report on a live load stores the buffer, decrements the counter and resolves a pending promise with the stored list exactly when it was the last task; a failure report does the same with a null entry and otherwise rejects; an HTTP response only closes its request, rejecting on a status other than 200; a settled promise never changes |
| BufferLists.FailTask | public/js/omnitone.esm.js:235-253 | a rejection settles a pending promise and leaves counter, entries and flags alone |
| BufferLists.SettledIsFinal | public/js/omnitone.esm.js:333-351 | once the promise has settled, no sequence of later callbacks changes it |
| BufferLists.AbortIsIdempotent | public/js/omnitone.esm.js:352-372 | abort twice equals abort once; aborting an unresolved loader rejects it and leaves it quiet |
| BufferLists.AbortedIgnoresEverything | public/js/omnitone.esm.js:352-372 | after abort every later callback leaves the loader unchanged |
| BufferLists.HttpErrorRejectsWithoutReport | public/js/omnitone.esm.js:295-303 | a non-200 response rejects the promise but is never counted or stored |
| BufferLists.Stored | public/js/omnitone.esm.js:333-351 | the entries stored by successful reports are exactly the reported ids, each holding a buffer |
| BufferLists.SuccessPrefix | public/js/omnitone.esm.js:333-351 | after k of n distinct successful reports, n-k remain, the k buffers are stored, and the promise is still pending iff k < n |
| BufferLists.AllTasksSucceed | public/js/omnitone.esm.js:333-351 | when each of n tasks succeeds once, in any order, the promise resolves with a buffer for exactly the ids 0 .. n-1 |
| BufferLists.LastFailureResolvesWithNull | public/js/omnitone.esm.js:254-268 | as written, a failure of the only outstanding task resolves the promise with a null entry, and the rejection that follows is ignored |
| BufferLists.ApplyCorrected | public/js/omnitone.esm.js:254-268 | with rejection before the report, a failure always settles the promise; no null entry is ever resolved or stored while pending; a settled promise never changes |
| BufferLists.CorrectedNeverResolvesWithNull | public/js/omnitone.esm.js:254-268 | with the corrected order, no sequence of callbacks resolves the loader with a null entry |
| BufferLists.CorrectedAgreesOnSuccess | public/js/omnitone.esm.js:254-268 | on success, HTTP and abort events the corrected transition equals the as-written one |
| FoaRouter.WireFrom | public/js/omnitone.esm.js:387-397 | the four connect calls add the edge of channel i at merger input map[i]; they stop with IndexSizeError at the first entry naming no input, keep the edges already added, and touch no edge of any other node |
| FoaRouter.SetChannelMap | public/js/omnitone.esm.js:387-397 | a non-array is ignored; an array is stored, all old splitter edges are removed, and the splitter's edges become exactly the routed ones (up to the first bad entry, which throws) |
| FoaRouter.CreateRouter | public/js/omnitone.esm.js:379-386 | without a map the router stores and wires the default map [0, 1, 2, 3] without throwing |
| FoaRouter.ValidMapRoutesEachChannel | public/js/omnitone.esm.js:387-397 | a map of four entries in 0..3 yields exactly one edge per channel, from splitter output i to merger input map[i] |
| FoaRouter.PartialRewireOnBadEntry | public/js/omnitone.esm.js:387-397 | the map [0, 1, -1, 3] throws after channels 0 and 1 have been wired, leaving exactly those two edges |
| FoaRotator.CreateRotator | public/js/omnitone.esm.js:400-451 | a fresh rotator holds the identity matrix |
| FoaRotator.SetRotationMatrix3 | public/js/omnitone.esm.js:452-462 | get3 afterwards returns the matrix (partner: GetSetRoundTrips) |
| FoaRotator.SetRotationMatrix4 | public/js/omnitone.esm.js:463-473 | get4 afterwards returns the input at the block indices 0,1,2,4,5,6,8,9,10 and 0 elsewhere (partner: GetSetRoundTrips) |
| FoaRotator.GetRotationMatrix3 | public/js/omnitone.esm.js:474-480 | entry k of the 3x3 matrix is the entry of getRotationMatrix4's array at block position k (partner: GetSetRoundTrips) |
| FoaRotator.GetRotationMatrix4 | public/js/omnitone.esm.js:481-493 | the nine gains sit at the block indices of a fresh array and the seven other entries are 0 (partner: GetSetRoundTrips) |
| FoaRotator.GetSetRoundTrips | public/js/omnitone.esm.js:452-493 | set3 then get3 is the identity; set4 then get4 returns the input at the block indices and zeros elsewhere; set4 of get4 changes nothing; set4 equals set3 of the block |
| FoaRotator.Render | public/js/omnitone.esm.js:400-451 | the gain network maps a four-channel frame to a four-channel frame |
| FoaRotator.RenderIsShimConjugate | public/js/omnitone.esm.js:400-451 | the network passes W through and maps (Y, Z, X) by shim * M * shim for the column-major gains M |
| FoaRotator.IdentityRendersUnchanged | public/js/omnitone.esm.js:400-451 | with the constructor's identity matrix every frame passes unchanged |
| FoaRotator.ShimRendersFlipped | public/js/omnitone.esm.js:400-451 | with diag(-1, 1, -1) loaded, the rotator negates Y and X |
| HoaRotator.Denominator | public/js/omnitone.esm.js:831-844 | the denominator of the u, v, w coefficients is positive for every in-band n and l >= 2 |
| HoaRotator.CoefficientsVanishAtEdges | public/js/omnitone.esm.js:831-844 | u vanishes when abs(m) = l, and w vanishes when m = 0 or abs(m) >= l-1; those are exactly the cases where the terms they multiply would read outside the band below |
| HoaRotator.URadicandVanishes | public/js/omnitone.esm.js:831-844 | the radicand of u is zero at the band's edge abs(m) = l |
| HoaRotator.WRadicandVanishes | public/js/omnitone.esm.js:831-844 | the radicand of w is zero once abs(m) + 1 >= l |
| HoaRotator.ComputeBand | public/js/omnitone.esm.js:845-863 | the recomputed band block has (2l+1)^2 entries |
| HoaRotator.ComputeBandAddressing | public/js/omnitone.esm.js:845-863 | entry (m, n) of the recurrence is stored at its centred address, inside the block |
| HoaRotator.RecomputeFrom | public/js/omnitone.esm.js:864-868 | bands below the start are kept; every band from the start on is computed in increasing order from band 1 and the band just below it |
| HoaRotator.SetRotationMatrix3 | public/js/omnitone.esm.js:903-914 | band 1 takes the matrix with entries 0,2,3,5,6,8 negated; every band 2..order is recomputed from band 1 and the band below |
| HoaRotator.SetRotationMatrix4 | public/js/omnitone.esm.js:915-926 | band 1 takes the sign-flipped 3x3 block of the 16-entry matrix |
| HoaRotator.GetSet4RoundTrip | public/js/omnitone.esm.js:915-952 | set4 then get4 returns the input at indices 0,1,2,4,5,6,8,9,10 and zeros elsewhere |
| HoaRotator.GetRotationMatrix4 | public/js/omnitone.esm.js:940-951 | the block of the 16-entry array is the band-1 gains with the sign pattern undone, and the seven other entries are 0 (partner: GetSet4RoundTrip) |
| HoaRotator.GetRotationMatrix3AsWritten | public/js/omnitone.esm.js:927-939 | as written, the 9-entry array is the first nine entries of getRotationMatrix4's array: the writes to indices 9 and 10 are lost and entries 3 and 7 stay 0 |
| HoaRotator.GetRotationMatrix3 | public/js/omnitone.esm.js:927-939 | corrected: the 3x3 matrix is the band-1 gains with the sign pattern undone, and embedding it gives getRotationMatrix4's array |
| HoaRotator.GetSet3RoundTrip | public/js/omnitone.esm.js:903-939 | set3 then the corrected get3 returns the input |
| HoaRotator.GetRotationMatrix3AsWrittenLosesIdentity | public/js/omnitone.esm.js:903-939 | after set3 of the identity, the as-written get3 returns [1,0,0,0,0,1,0,0,0], which is not the identity; the corrected get3 returns the identity |
| HoaRotator.CreateRotator | public/js/omnitone.esm.js:869-902 | order 0 throws, because no band-1 gains exist; otherwise the rotator is well shaped for the order and band 1 holds diag(-1, 1, -1) |
| HoaRotator.Band1OfIdentityAndShim | public/js/omnitone.esm.js:903-914 | the identity gives band-1 gains diag(-1, 1, -1), and diag(-1, 1, -1) gives the identity |
| HoaRotator.BuildRotatorGraph | public/js/omnitone.esm.js:881-898 | the constructor's loops build exactly the through edge for channel 0 plus, for each band and gain (j, k), splitter l*l+j to the gain and the gain to merger l*l+k |
| HoaRotator.WireRow | public/js/omnitone.esm.js:885-896 | the inner loop over k adds exactly the edges of row j's gains |
| HoaRotator.WiringStaysInBand | public/js/omnitone.esm.js:881-898 | every gain of band l is fed by and feeds only channels of band l |
| Convolvers.Enable | public/js/omnitone.esm.js:547-550 | enable connects the binaural merger to the output, sets the flag, and changes no other edge and no buffer |
| Convolvers.Disable | public/js/omnitone.esm.js:551-554 | disable removes every edge leaving the binaural merger, clears the flag, and keeps the input wiring and buffers |
| Convolvers.EnableDisableRoundTrip | public/js/omnitone.esm.js:547-554 | on an enabled convolver, disable then enable restores it, and enable is idempotent |
| Convolvers.SetFoaHrirs | public/js/omnitone.esm.js:539-546 | only the first call takes effect; it gives the two convolvers entries 0 and 1 of the list (undefined past its end), in that order; it throws NotSupportedError iff one of the two is a buffer of other than 1, 2 or 4 channels, keeping the assignment before the refused one and leaving the flag unset; otherwise it sets the flag |
| Convolvers.SetHoaHrirs | public/js/omnitone.esm.js:763-771 | only the first call takes effect; it assigns list[i] to convolver i in order; entry i is stored iff it and every entry before it are accepted (null, or 1, 2 or 4 channels) and it has a convolver; it throws NotSupportedError iff a refused buffer falls within the convolvers, TypeError iff the list is longer than the convolvers and every entry within them is accepted, and sets the flag iff it does not throw |
| Convolvers.FoaSetterIsHoaLoopOverTwo | public/js/omnitone.esm.js:539-546 | on two pairs the first-order setter stores the same buffers and throws the same error as the higher-order loop over entries 0 and 1 |
| Convolvers.SetHrirsOnlyOnce | public/js/omnitone.esm.js:539-546 | once a call has gone through, a second call of either setter changes nothing; a call that threw leaves the flag unset, so the next call takes effect |
| Convolvers.CreateFoaConvolver | public/js/omnitone.esm.js:495-538 | the first-order convolver has two pair convolvers; the constructor throws NotSupportedError iff HRIRs were given and entry 0 or 1 is refused, and then leaves before enable(); otherwise it is enabled, loaded iff HRIRs were given, and its edges are exactly the fixed first-order wiring plus the output edge |
| Convolvers.BuildHoaConvolverGraph | public/js/omnitone.esm.js:719-762 | the loops build exactly the per-channel edges of channels 0 .. (order+1)^2-1 plus the five bus edges |
| Convolvers.WireBand | public/js/omnitone.esm.js:738-752 | the m-loop of band l extends the per-channel edges from channel l*l to channel l*l+2l+1 |
| Convolvers.CreateHoaConvolver | public/js/omnitone.esm.js:706-718 | the convolver has ceil((order+1)^2/2) pairs; without HRIRs it does not throw and is not loaded; with HRIRs it throws iff the list is too long or a buffer within the convolvers is refused, NotSupportedError exactly in the latter case; when it does not throw it is enabled |
| Convolvers.ChannelReachesItsPair | public/js/omnitone.esm.js:737-753 | channel acn enters pair floor(acn/2) < ceil((order+1)^2/2) at slot acn mod 2, and that slot of no other pair; the slot feeds the positive bus iff m >= 0 and the negative bus otherwise |
| Convolvers.PairsWithinCount | public/js/omnitone.esm.js:731-753 | no connection names a pair beyond the last convolver |
| Convolvers.EveryPairChained | public/js/omnitone.esm.js:731-753 | every pair's merger feeds its convolver and the convolver feeds its splitter |
| Convolvers.FoaAgreesWithHoaAtFirstOrder | public/js/omnitone.esm.js:505-538 | at first order the fixed first-order wiring has the same input, merger and convolver edges as the higher-order loops, and each channel reaches the right ear through the inverter exactly when it is on the negative bus |
| Convolvers.FoaStaticMatchesWiring | public/js/omnitone.esm.js:505-538 | the first-order splitter, merger and convolver edges are exactly the higher-order loops' per-channel edges for four channels |
| Convolvers.FoaEarsMatchBuses | public/js/omnitone.esm.js:505-538 | every first-order channel reaches the left ear; it reaches the right ear inverted iff its m < 0 and directly iff m >= 0 |
| Convolvers.FirstOrderBuses | public/js/omnitone.esm.js:745-751 | at first order only channel 1 (Y, m = -1) goes to the negative bus |
| Renderers.ParseMode | public/js/omnitone.esm.js:561-565 | a string names a mode iff it is one of "ambisonic", "bypass" and "off", and it then names that mode |
| Renderers.ParseModeName | public/js/omnitone.esm.js:561-565 | every mode's name parses back to the mode |
| Renderers.ConfiguredMode | public/js/omnitone.esm.js:594-602 | a known configured mode is kept; a missing or unknown one falls back to ambisonic |
| Renderers.HoaOrderOf | public/js/omnitone.esm.js:990-998 | the order is 2 iff 2 was asked for, and otherwise 3 |
| Renderers.Connections | public/js/omnitone.esm.js:608-623 | the renderer's connections include its own and its router's |
| Renderers.CreateFoaRenderer | public/js/omnitone.esm.js:566-607 | a channel map other than a 4-element array throws; then a path list other than 2 URLs throws; then the router throws IndexSizeError iff an entry names no merger input; otherwise the renderer is fresh: not ready, the configured mode recorded, the map routed, the convolver enabled without HRIRs |
| Renderers.FreshFoaWiring | public/js/omnitone.esm.js:604-623 | a fresh first-order renderer is wired for ambisonic mode, whatever mode was configured: convolver on, bypass unconnected, nothing else leaving them |
| Renderers.FoaRouterThrowsOnlyIndexSize | public/js/omnitone.esm.js:612 | the router constructor throws exactly when an entry names no input, and then IndexSizeError |
| Renderers.FirstInvalid | public/js/omnitone.esm.js:387-397 | a map with a bad entry has a least bad channel, with every channel before it valid |
| Renderers.CreateHoaRenderer | public/js/omnitone.esm.js:982-1040 | a path list other than one URL per stereo pair throws; otherwise the renderer has the chosen order, is not ready, holds the configured mode and the identity-loaded rotator, and has exactly the façade, rotator, convolver and output edges |
| Renderers.BuildHoaRenderer | public/js/omnitone.esm.js:982-1040 | with the components built, every edge is a façade, rotator, per-channel, bus or output edge; the renderer is wired for ambisonic mode |
| Renderers.StartHrirLoad | public/js/omnitone.esm.js:1041-1050 | initialize starts one task per configured URL (fetched) or per built-in HRIR (base64) |
| Renderers.HrirsFillEveryPair | public/js/omnitone.esm.js:1041-1050 | for every order and source, the number of HRIR files equals the number of stereo-pair convolvers |
| Renderers.ApplyMode | public/js/omnitone.esm.js:683-701 | each mode installs its wiring (ambisonic: convolver on, bypass off; bypass: convolver off, bypass to output; off: both off), records the mode, and leaves every other edge alone |
| Renderers.SetRenderingMode | public/js/omnitone.esm.js:679-704 | the current mode and unknown strings change nothing; a known other mode installs its wiring and is recorded; nothing but the bypass and binaural-merger edges changes |
| Renderers.SetRenderingModeKeepsModeApplied | public/js/omnitone.esm.js:679-704 | a renderer wired for its mode stays wired for its mode after any call, and a repeated call changes nothing |
| Renderers.OnHrirsLoaded | public/js/omnitone.esm.js:628-635 | as written, the load handler stores the HRIRs and becomes ready unless the assignment throws, but it never changes the wiring or the mode |
| Renderers.ReadyIffHrirsAccepted | public/js/omnitone.esm.js:624-641 | on a renderer as constructed, the handler makes it ready iff every HRIR reaching a convolver is null or of 1, 2 or 4 channels and, at higher orders, the list fits the convolvers; a refused HRIR (three channels, say) throws NotSupportedError before the renderer becomes ready |
| Renderers.ConfiguredBypassNeverApplied | public/js/omnitone.esm.js:624-641 | a first-order renderer configured for bypass becomes ready unless the HRIR assignment throws and reports bypass, but still convolves, with no bypass edge |
| Renderers.OnHrirsLoadedCorrected | public/js/omnitone.esm.js:624-641 | the corrected handler installs the configured mode's wiring when the HRIRs arrive, so a ready renderer is wired for the mode it reports |
| Renderers.CorrectedAgreesWhenApplied | public/js/omnitone.esm.js:624-641 | where the wiring already matched the mode, the corrected handler equals the as-written one |
| Renderers.AmbisonicConstructionIsApplied | public/js/omnitone.esm.js:566-623 | a fresh renderer configured for ambisonic is wired for its mode |
| Renderers.SetRotationMatrix3 | public/js/omnitone.esm.js:660-665 | ignored until ready; then only the rotator changes: the first-order one holds the matrix, the higher-order one's band 1 its flip |
| Renderers.SetRotationMatrix4 | public/js/omnitone.esm.js:666-671 | ignored until ready; then it acts as setRotationMatrix3 of the 3x3 block |
| Renderers.SetChannelMap | public/js/omnitone.esm.js:648-659 | ignored until ready and when the map equals the stored one; otherwise the map is stored and the router rewired, throwing iff an entry names no input, and a map of entries in 0..3 routes channel i to input map[i] |
| Renderers.RouterThrowsOnlyOnInvalid | public/js/omnitone.esm.js:387-397 | rewiring throws exactly when some entry names no merger input |
| Quaternions.IdentityIsNeutral | public/js/quaternionAdapters.js:195-218 | the identity is {w:1, x:0, y:0, z:0} and is neutral on both sides of the Hamilton product |
| Quaternions.Identity | public/js/quaternionAdapters.js:45-55 | the identity is a unit quaternion, neutral on both sides of the product (partner: IdentityIsNeutral) |
| Quaternions.Multiply | public/js/quaternionAdapters.js:195-218 | the conjugate of a product is the product of the conjugates in reverse order (partners: MultiplyAssociative, NormMultiplicative) |
| Quaternions.ProductComponents | public/js/quaternionAdapters.js:195-218 | the product's four components are the Hamilton polynomials |
| Quaternions.MultiplyAssociative | public/js/quaternionAdapters.js:195-218 | the Hamilton product is associative |
| Quaternions.NormMultiplicative | public/js/quaternionAdapters.js:195-218 | the squared norm of a product is the product of the squared norms |
| Quaternions.FromWebSocket | public/js/quaternionAdapters.js:62-70 | the head-tracker input keeps w and z |
| Quaternions.WebSocketSwapInvolution | public/js/quaternionAdapters.js:62-70 | swapping x and y twice gives the input back, and the swap keeps the norm |
| Quaternions.ToWebGpu | public/js/quaternionAdapters.js:78-86 | the WebGPU map keeps w |
| Quaternions.WebGpuPreservesNorm | public/js/quaternionAdapters.js:78-86 | the WebGPU map keeps the norm, and three applications give the conjugate |
| Quaternions.BasisIsProperRotation | public/js/quaternionAdapters.js:94-109 | the AmbiX-to-Omnitone basis change is the matrix [[0,-1,0],[0,0,1],[-1,0,0]], whose determinant is +1 |
| Quaternions.ToOmnitoneClosedForm | public/js/quaternionAdapters.js:94-109 | shim times basis change is the signed permutation (w, x, y, z) to (-z, -x, w, y) |
| Quaternions.ToOmnitonePreservesNorm | public/js/quaternionAdapters.js:94-109 | the Omnitone conversion keeps the norm and sends the identity to {w:0, x:0, y:1, z:0} |
| Quaternions.ToOmnitone | public/js/quaternionAdapters.js:94-109 | the shim times the basis change is the signed permutation (w, x, y, z) to (-z, -x, w, y) (partner: ToOmnitonePreservesNorm) |
| Quaternions.FromAxisAngle | public/js/quaternionAdapters.js:135-157 | a zero-length axis gives the identity; otherwise w is cos of the half angle |
| Quaternions.AxisAngleComponents | public/js/quaternionAdapters.js:135-157 | for a non-zero axis the vector part is the axis divided by its length, scaled by sin of the half angle |
| Quaternions.AxisAngleNorm | public/js/quaternionAdapters.js:135-157 | with a true square root, an axis-angle quaternion has squared norm cos^2 + sin^2 of the half angle, so it is a unit quaternion |
| Quaternions.AzimuthElevationClosedForm | public/js/quaternionAdapters.js:173-184 | the result is the Omnitone conversion of rotZ(azimuth) * rotY(elevation): (-sa*ce, sa*se, ca*ce, ca*se) in half angles |
| Quaternions.AzimuthElevationAtRest | public/js/quaternionAdapters.js:173-184 | azimuth and elevation 0 give the Omnitone image of the identity, {w:0, x:0, y:1, z:0} |
| Quaternions.FromAzimuthElevation | public/js/quaternionAdapters.js:173-184 | with sqrt(1) = 1 the squared norm is the product of cos^2 + sin^2 of the two half angles, so the result is a unit quaternion whenever sin and cos obey the Pythagorean identity (partners: AzimuthElevationClosedForm, AzimuthElevationAtRest) |
| Quaternions.AxisProductNorm | public/js/quaternionAdapters.js:173-184 | the product of the azimuth and elevation quaternions has that squared norm |
| WrapperStatics.VolumeToGain | public/js/omnitoneWrapper.js:293-301 | the level always lies in [-80, -10] dB, and a volume <= 0 gives -80 |
| WrapperStatics.VolumeCurve | public/js/omnitoneWrapper.js:293-301 | within the unit range the level is -80 + 70 * volume^0.2, so full volume gives -10 |
| WrapperStatics.VolumeToGainMonotone | public/js/omnitoneWrapper.js:293-301 | a louder volume never gives a lower level, given a monotone power function |
| WrapperStatics.QuaternionToRotationMatrix3 | public/js/omnitoneWrapper.js:307-334 | for a unit quaternion the diagonal sums to 4w^2 - 1, that is 1 + 2 cos of the rotation angle, and the identity quaternion gives the identity matrix (partners: MatrixIsConjugateRotation, UnitQuaternionGivesOrthogonalMatrix) |
| WrapperStatics.MatrixIsConjugateRotation | public/js/omnitoneWrapper.js:307-334 | read column-major, the array is the transpose of q's rotation matrix, which is the matrix of q's conjugate |
| WrapperStatics.IdentityAndShimMatrices | public/js/omnitoneWrapper.js:307-334 | the identity quaternion gives the identity matrix, and {w:0, x:0, y:1, z:0} gives diag(-1, 1, -1) |
| WrapperStatics.UnitQuaternionGivesOrthogonalMatrix | public/js/omnitoneWrapper.js:307-334 | a unit quaternion gives an orthogonal matrix: unit columns at right angles |
| SphericalHarmonics.BuildBanded | public/js/sphericalHarmonics.js:62-68 | the band loop emits (order+1)^2 entries (none for a negative order), and entry k is the value of k's band |
| SphericalHarmonics.Sn3dToN3dFactors | public/js/sphericalHarmonics.js:61-70 | the table has one factor per ACN channel, and channel k's factor is sqrt(2l+1) for its band l |
| SphericalHarmonics.N3dFactorAt | public/js/sphericalHarmonics.js:61-70 | every entry of the factor table is sqrt(2l+1) of its channel's band |
| SphericalHarmonics.N3dFactorOfChannelZero | public/js/sphericalHarmonics.js:61-70 | entry 0 of the table is 1 |
| SphericalHarmonics.MaxReWeights | public/js/sphericalHarmonics.js:79-86 | the weight loop emits one weight per channel, as in the weight table |
| SphericalHarmonics.MaxReWeight | public/js/sphericalHarmonics.js:82 | band 0 keeps weight 1 when cos 0 = 1, and the band just past the order gets cos(pi/2) (partners: MaxReTableAt, MaxReScalesByBand) |
| SphericalHarmonics.ApplyMaxRe | public/js/sphericalHarmonics.js:78-95 | weighting keeps the matrix shape: the same row count and row lengths |
| SphericalHarmonics.MaxReScalesByBand | public/js/sphericalHarmonics.js:78-95 | every column within the table is scaled by cos(pi l / (2 order + 2)) of its band; columns past the table become NaN |
| SphericalHarmonics.MaxReTableAt | public/js/sphericalHarmonics.js:79-86 | channel k's weight is the weight of its band, so all columns of one band get the same weight |
| SphericalHarmonics.MaxReKeepsBandZero | public/js/sphericalHarmonics.js:78-95 | with cos 0 = 1, column 0 is unchanged |
| SphericalHarmonics.EvaluateSH | public/js/sphericalHarmonics.js:104-125 | evaluation returns 16 coefficients |
| SphericalHarmonics.EvaluateShLowOrders | public/js/sphericalHarmonics.js:104-111 | coefficient 0 does not depend on the direction, and coefficients 1..3 are 0.488603 * (-y, -z, x) |
| SphericalHarmonics.EvaluateShParity | public/js/sphericalHarmonics.js:104-125 | at the antipodal direction, coefficient k is multiplied by (-1)^l for its band l |
| SphericalHarmonics.BandsUpToThirdOrder | public/js/sphericalHarmonics.js:104-125 | the 16 coefficients are grouped as 1, 3, 5 and 7 channels of bands 0..3 |
| OmnitoneWrapper.Create | public/js/omnitoneWrapper.js:102-129 | a new wrapper is neither disposed nor initialized, holds no buffer, source or stream, and is in ambisonic mode with no connections |
| OmnitoneWrapper.NotDisposedGuard | public/js/omnitoneWrapper.js:349-353 | the guard passes iff the wrapper is not disposed, and otherwise throws Disposed |
| OmnitoneWrapper.InitializedGuard | public/js/omnitoneWrapper.js:355-360 | passes iff not disposed and context, input gain and renderer all exist; disposal is reported before non-initialisation |
| OmnitoneWrapper.ContentGuard | public/js/omnitoneWrapper.js:362-369 | passes iff initialized with a content buffer; the initialisation error comes first |
| OmnitoneWrapper.BufferLoadedGuard | public/js/omnitoneWrapper.js:371-383 | passes iff initialized with a content buffer and positive duration; a non-positive duration throws InvalidDuration after the earlier checks |
| OmnitoneWrapper.BufferModeGuard | public/js/omnitoneWrapper.js:779-786 | play's checks pass iff the buffer is loaded and no source is bound; a bound source throws after the buffer checks |
| OmnitoneWrapper.ElapsedTimeInSeconds | public/js/omnitoneWrapper.js:137-144 | throws iff a source is bound; otherwise returns the elapsed milliseconds in seconds |
| OmnitoneWrapper.DurationInSeconds | public/js/omnitoneWrapper.js:152-159 | throws iff a source is bound; otherwise returns the duration |
| OmnitoneWrapper.SampleRate | public/js/omnitoneWrapper.js:167-174 | throws iff a source is bound; otherwise it is positive iff a content buffer exists |
| OmnitoneWrapper.TotalSamples | public/js/omnitoneWrapper.js:182-189 | throws iff a source is bound; otherwise 0 without a content buffer |
| OmnitoneWrapper.Gain | public/js/omnitoneWrapper.js:211-215 | throws exactly the initialisation guard's error; otherwise hands out the input gain |
| OmnitoneWrapper.SetGain | public/js/omnitoneWrapper.js:221-233 | throws the guard's error; a non-number is ignored; otherwise only the gain target changes, to 10^(dB/20) |
| OmnitoneWrapper.SetVolume | public/js/omnitoneWrapper.js:239-243 | throws the guard's error; otherwise only the gain target changes, to the level of the volume curve, which is -80 dB for a volume <= 0 |
| OmnitoneWrapper.Output | public/js/omnitoneWrapper.js:250-254 | throws exactly the initialisation guard's error; otherwise returns the renderer's output |
| OmnitoneWrapper.SetRenderingMode | public/js/omnitoneWrapper.js:276-283 | the string is stored whatever it is; an existing renderer takes a known mode and ignores an unknown one; the wrapper invariant is kept and nothing else changes |
| OmnitoneWrapper.OnEnded | public/js/omnitoneWrapper.js:389-394 | a function is appended to the ended callbacks; anything else changes nothing |
| OmnitoneWrapper.RotateWithQuaternion | public/js/omnitoneWrapper.js:404-411 | disposal throws; without a renderer the call silently does nothing; otherwise only the renderer changes, receiving the quaternion's matrix |
| OmnitoneWrapper.RotateWithAzimuthElevation | public/js/omnitoneWrapper.js:439-448 | rotating by two angles is rotating by their Omnitone quaternion |
| OmnitoneWrapper.Notify | public/js/omnitoneWrapper.js:876-880 | a missing quaternion is ignored; otherwise the head-tracker quaternion is converted to Omnitone's convention and applied |
| OmnitoneWrapper.AtRestRotation | public/js/omnitoneWrapper.js:439-448 | azimuth and elevation 0 hand the renderer diag(-1, 1, -1) |
| OmnitoneWrapper.ShimRestsRenderer | public/js/omnitone.esm.js:903-914 | on a ready renderer, diag(-1, 1, -1) sets the higher-order band-1 gains to the identity and the first-order rotator to the shim itself |
| OmnitoneWrapper.AtRestMatrix | public/js/omnitoneWrapper.js:439-448 | the rest orientation's matrix is diag(-1, 1, -1) |
| OmnitoneWrapper.ClearCurrentBufferSource | public/js/omnitoneWrapper.js:495-503 | stopping a source that was created but never started throws InvalidStateError before anything changes; otherwise afterwards no buffer source plays or has connections and the interval is stopped, and nothing else changes |
| OmnitoneWrapper.FinalizeLoading | public/js/omnitoneWrapper.js:454-459 | needs a content buffer; sets the duration to length / sampleRate, applies the (0, 0) rotation, and changes nothing else |
| OmnitoneWrapper.LoadFromAudioBuffer | public/js/omnitoneWrapper.js:466-490 | the guard, then null, then a channel count other than (order+1)^2 throw; then a never-started current source makes the clear throw InvalidStateError after the bound stream is forgotten; otherwise the buffer is stored, the stream forgotten, the playing source dropped, position and elapsed time reset, and the duration set |
| OmnitoneWrapper.RequestedUrlsAsWritten | public/js/omnitoneWrapper.js:750-771 | as written, a list is fetched as given, but a single URL string is fetched one character per task |
| OmnitoneWrapper.RequestedUrls | public/js/omnitoneWrapper.js:750-771 | a single URL is one chunk; a list is fetched as given |
| OmnitoneWrapper.SingleUrlIsSplit | public/js/omnitoneWrapper.js:750-771 | as written, "a.wav" becomes five one-character requests; as documented it is one request |
| OmnitoneWrapper.StartLoad | public/js/omnitoneWrapper.js:750-760 | as written: the guard's error throws; otherwise the progress callback is kept and one pending URL task is started per element of the argument, so a single URL string starts one task per character; nothing else changes |
| OmnitoneWrapper.StartLoadCorrected | public/js/omnitoneWrapper.js:750-760 | with a single URL fetched as one chunk: the guard's error throws; otherwise one pending task is started per chunk, one for a single URL |
| OmnitoneWrapper.StartLoadAgrees | public/js/omnitoneWrapper.js:750-760 | for a list the as-written and corrected starts are equal; for a single URL they are equal iff the guard throws or the URL is one character long |
| OmnitoneWrapper.LoadEvent | public/js/omnitoneWrapper.js:755-766 | a task callback advances the load in flight by the loader's as-written transition, and is ignored when none is in flight; nothing else changes |
| OmnitoneWrapper.LoadEventCorrected | public/js/omnitoneWrapper.js:755-766 | the same with the corrected loader transition; on decode successes, HTTP responses and aborts it equals the as-written one |
| OmnitoneWrapper.AbortLoad | public/js/omnitoneWrapper.js:731-740 | has no guard; aborts the load in flight, if any, and changes nothing else |
| OmnitoneWrapper.Chunks | public/js/omnitoneWrapper.js:760-771 | the resolved list yields the chunks iff no entry is null, and then exactly those buffers in order |
| OmnitoneWrapper.FinishLoad | public/js/omnitoneWrapper.js:760-771 | nothing happens while the load is pending; a rejection propagates; a resolved list with a null entry throws (never NotSupportedError) and changes nothing else; otherwise the merge's error propagates, or the merged buffer, within the engine limit and with positive duration, becomes the content |
| OmnitoneWrapper.Settle | public/js/omnitoneWrapper.js:760-771 | handles a settled promise as FinishLoad describes, with no load in flight: a merge error is thrown with the state unchanged, and a merged buffer becomes the content |
| OmnitoneWrapper.FinishLoadCorrected | public/js/omnitoneWrapper.js:760-771 | with the corrected loader and merge: a rejection propagates, and a stored content has at most 32 channels and positive duration |
| OmnitoneWrapper.SettleCorrected | public/js/omnitoneWrapper.js:760-771 | with the corrected merge: a resolved list with a null entry throws TypeError; a stored content has at most 32 channels and positive duration |
| OmnitoneWrapper.SettleAgrees | public/js/omnitoneWrapper.js:760-771 | the as-written and corrected settles agree on pending and rejected loads, and on resolved loads whose chunks are all present and total at most 32 channels |
| OmnitoneWrapper.LastChunkFailure | public/js/omnitoneWrapper.js:755-770 | as written, a one-chunk load whose fetch fails resolves with a null entry, and the merge then throws TypeError; with the corrected loader the load is rejected instead |
| OmnitoneWrapper.StoreMerged | public/js/omnitoneWrapper.js:768-770 | the merged buffer becomes the content even if finishing then throws; unless it throws, the duration is positive; the load in flight is untouched |
| OmnitoneWrapper.DurationPositive | public/js/omnitoneWrapper.js:454-459 | an audio buffer has at least one frame and a sample rate in [3000, 768000], so length / sampleRate is positive |
| OmnitoneWrapper.Play | public/js/omnitoneWrapper.js:779-815 | play's checks throw first; then a never-started current source makes the teardown throw InvalidStateError with nothing changed; otherwise the old source is replaced by exactly one new source connected to the input gain and the clock starts; a negative start offset rejects with RangeError after the source is in place, and the source counts as started iff it did not |
| OmnitoneWrapper.Tick | public/js/omnitoneWrapper.js:808-812 | while playing, elapsed time minus the start offset equals the time since start; otherwise nothing changes |
| OmnitoneWrapper.Resume | public/js/omnitoneWrapper.js:823-833 | the checks throw first; otherwise it plays from elapsed / duration, and play's rejection does not reach the caller |
| OmnitoneWrapper.Prepare | public/js/omnitoneWrapper.js:841-851 | the checks throw first; otherwise elapsed becomes t * 1000 ms and the position t / duration, with nothing else changed |
| OmnitoneWrapper.Stop | public/js/omnitoneWrapper.js:858-869 | the initialisation guard and then a bound stream throw; then a never-started current source throws InvalidStateError with nothing changed; otherwise no buffer source remains and position and elapsed time are 0 |
| OmnitoneWrapper.PrepareThenResume | public/js/omnitoneWrapper.js:823-851 | prepare(t) then resume() passes the checks and plays from t / duration |
| OmnitoneWrapper.PreparedIsPlayable | public/js/omnitoneWrapper.js:841-851 | after prepare(t) the wrapper still passes play's checks, keeps its duration, and holds t * 1000 ms as elapsed time |
| OmnitoneWrapper.ResumePlaysFromElapsed | public/js/omnitoneWrapper.js:823-833 | resume plays from the elapsed time as a fraction of the duration |
| OmnitoneWrapper.ResumeAfterPrepare | public/js/omnitoneWrapper.js:823-851 | prepare(t) then resume() plays from t * 1000 / 1000 / duration, with the checks still passing |
| OmnitoneWrapper.PositionRoundTrip | public/js/omnitoneWrapper.js:823-851 | a position stored in milliseconds and read back as a fraction of the duration is the original fraction |
| OmnitoneWrapper.PlayThenTick | public/js/omnitoneWrapper.js:779-815 | playing from seconds / duration and ticking d ms later gives an elapsed time of seconds * 1000 + d |
| OmnitoneWrapper.PlayStartsClock | public/js/omnitoneWrapper.js:779-815 | play starts the interval at the given time from the given fraction, keeping the duration |
| OmnitoneWrapper.TickFromStart | public/js/omnitoneWrapper.js:808-812 | a tick of a clock started from seconds / duration reports seconds * 1000 plus the milliseconds since start |
| OmnitoneWrapper.BindSource | public/js/omnitoneWrapper.js:890-909 | a missing node throws; otherwise the node is recorded, a different previous stream loses its connections, and the new stream feeds the input gain; without an input gain it throws TypeError after recording |
| OmnitoneWrapper.DropBoundSource | public/js/omnitoneWrapper.js:656-662 | the bound stream is disconnected and forgotten |
| OmnitoneWrapper.DropRenderer | public/js/omnitoneWrapper.js:664-674 | the renderer's output is disconnected and the renderer dropped |
| OmnitoneWrapper.DropInputGain | public/js/omnitoneWrapper.js:676-682 | the input gain is disconnected and dropped |
| OmnitoneWrapper.Dispose | public/js/omnitoneWrapper.js:645-688 | a second dispose returns at once; the first marks the wrapper disposed, and a never-started current source then makes it throw InvalidStateError with every resource kept; otherwise it leaves no renderer, input gain, content, stream or source and only connections of the nodes it keeps, but keeps the context |
| OmnitoneWrapper.Install | public/js/omnitoneWrapper.js:718-724 | a successful initialize leaves a not-yet-ready renderer of the order, loading one HRIR per stereo pair, between input gain and destination, in the wrapper's mode, with the gain at the initial volume |
| OmnitoneWrapper.WiredIsGood | public/js/omnitoneWrapper.js:718-724 | attaching the renderer keeps the wrapper invariant and makes the wrapper initialized |
| OmnitoneWrapper.WiredShape | public/js/omnitoneWrapper.js:718-724 | attaching connects input gain, renderer and destination, and records the renderer and its pending HRIR load, changing nothing else |
| OmnitoneWrapper.Initialize | public/js/omnitoneWrapper.js:696-725 | run with nothing between its continuations: disposal throws; a complete set-up returns at once; a failing context throws; otherwise context and gain exist, and it throws iff no renderer exists for the order (RendererMissing for orders other than 1..3) |
| OmnitoneWrapper.ContextArrived | public/js/omnitoneWrapper.js:701-702 | the continuation after the context await: a context that fails to resume throws; otherwise the context and a fresh, unconnected input gain exist: every connection into or out of an earlier gain is gone, every other connection stays, and nothing else changes; disposal is not re-checked |
| OmnitoneWrapper.RetryDropsBoundStream | public/js/omnitoneWrapper.js:696-724 | a retried initialize() after a failed one succeeds, keeps the stream recorded as bound, connects the new gain to the renderer, and leaves nothing feeding the new gain: a stream bound to the earlier gain no longer reaches the renderer |
| OmnitoneWrapper.RendererArrived | public/js/omnitoneWrapper.js:703-724 | the continuation after the renderer await: no renderer throws its error; on a wrapper without an input gain the renderer is kept with its HRIR load started and TypeError is thrown, the invariant surviving iff the wrapper names the ambisonic mode or none; on a live wrapper it is the complete set-up; on a disposed one everything is wired and the volume setter throws Disposed |
| OmnitoneWrapper.LateInitializeAfterDispose | public/js/omnitoneWrapper.js:645-724 | dispose() during the context await: the continuation leaves a disposed wrapper with context, gain and renderer, wired to the destination and loading HRIRs, and throws Disposed |
| OmnitoneWrapper.DisposeDuringRendererAwait | public/js/omnitoneWrapper.js:645-724 | dispose() during the renderer await: the continuation keeps the renderer and starts its HRIR load, throws TypeError, and leaves no edge from the renderer output or the input gain |
| OmnitoneWrapper.CreateRenderer | public/js/omnitoneWrapper.js:704-716 | order 1 builds the first-order renderer and orders 2 and 3 the higher-order one, each wired for ambisonic mode; any other order throws RendererMissing |
| OmnitoneWrapper.HrirEvent | public/js/omnitone.esm.js:1041-1064 | an HRIR callback advances the renderer's loader by the as-written transition; the renderer keeps its mode, becomes ready only once the loader has resolved, and on resolution becomes ready iff assigning the resolved list does not throw |
| OmnitoneWrapper.HrirEventCorrected | public/js/omnitone.esm.js:1041-1064 | with the corrected loader and ready handler: the renderer keeps its mode and becomes ready only once the loader has resolved |
| OmnitoneWrapper.HrirEventAgrees | public/js/omnitone.esm.js:1041-1064 | on decode successes, HTTP responses and aborts the as-written and corrected HRIR transitions are equal |
| OmnitoneWrapper.LastHrirFailureResolves | public/js/omnitone.esm.js:254-268 | as written, a failed decode of the last outstanding HRIR resolves the load with a null entry, and the renderer becomes ready iff assigning that list does not throw; with the corrected loader the load is rejected and the renderer stays not ready |
| OmnitoneWrapper.DisposedRejectsEverything | public/js/omnitoneWrapper.js:645-688 | after dispose every asserting member throws Disposed, including both rotations, and dispose changes nothing |
| OmnitoneWrapper.FreshWrapperGuards | public/js/omnitoneWrapper.js:355-360 | before initialize the asserting members throw NotInitialized while the rotations and notify silently do nothing |
| OmnitoneWrapper.StreamingLocksBufferControls | public/js/omnitoneWrapper.js:137-189 | with a bound source the four getters and stop throw BufferModeOnly, and so do play, resume and prepare once a buffer is loaded |
| OmnitoneWrapper.BindBeforeInitialize | public/js/omnitoneWrapper.js:890-909 | on a wrapper that was never initialized, bindSource records the node, throws TypeError, and leaves it in streaming mode |
| OmnitoneWrapper.LoadFromAudioBufferKeepsStream | public/js/omnitoneWrapper.js:466-490 | loadFromAudioBuffer forgets the bound stream without disconnecting it, so a later bindSource no longer reaches that stream |
| OmnitoneWrapper.OrderChangeRetargetsValidation | public/js/omnitoneWrapper.js:260-262 | setting the order after initialize retargets validation without rebuilding the renderer: a 4-channel buffer accepted at order 1 is rejected at order 3 |
| OmnitoneWrapper.SourceEnds | public/js/omnitoneWrapper.js:338-346 | a started, non-looping source that has not ended plays to its end: it stays current and stoppable, stops sounding, and every registered callback runs; otherwise nothing happens |
| OmnitoneWrapper.LateLoadAfterDispose | public/js/omnitoneWrapper.js:760-771 | a load that settles after dispose still stores the merged buffer, and only then throws Disposed |
| OmnitoneWrapper.NegativeSeekStrandsSource | public/js/omnitoneWrapper.js:779-815 | prepare with a negative time and then resume leave a current source that never started; stop and play then throw InvalidStateError, and dispose marks the wrapper disposed but throws before releasing the renderer, the input gain and the content |
| TransportBuffer.Create | public/js/audioTransportBuffer.js:31-50 | construction registers exactly one ended handler with the wrapper; there is no callback yet and the flag is down |
| TransportBuffer.OnEnded | public/js/audioTransportBuffer.js:271-274 | the new callback replaces any earlier one, and nothing else changes |
| TransportBuffer.Ended | public/js/audioTransportBuffer.js:36-49 | a raised flag swallows the event and is lowered; otherwise the registered callback, if any, is called |
| TransportBuffer.Lift | public/js/audioTransportBuffer.js:208-254 | a delegated call leaves the transport holding the wrapper's new state and throws what the wrapper threw |
| TransportBuffer.Play | public/js/audioTransportBuffer.js:208-210 | `_play` is `wrapper.resume()`; after dispose it throws TypeError |
| TransportBuffer.Resume | public/js/audioTransportBuffer.js:226-228 | `_resume` is the same call as `_play` |
| TransportBuffer.Pause | public/js/audioTransportBuffer.js:217-219 | `_pause` drops the playing source without a guard; after dispose it throws TypeError, and a never-started source makes it throw InvalidStateError with nothing changed |
| TransportBuffer.Stop | public/js/audioTransportBuffer.js:252-254 | `_stop` is `wrapper.stop()` |
| TransportBuffer.SeekAsWritten | public/js/audioTransportBuffer.js:236-245 | as written, seek always raises the flag; a never-started source makes the clear throw InvalidStateError, which is rethrown; otherwise it drops the source and prepares, and a failing prepare propagates with the flag raised |
| TransportBuffer.Seek | public/js/audioTransportBuffer.js:236-245 | corrected: the flag ends up raised iff it already was or the seek stops a source that is still sounding (started, not yet ended); the error thrown and the wrapper are those of the as-written seek |
| TransportBuffer.NaturalEnd | public/js/audioTransportBuffer.js:36-49 | the wrapper's source plays to its end and the transport's handler filters the event; a source that cannot end delivers nothing |
| TransportBuffer.SeekAfterNaturalEndSwallows | public/js/audioTransportBuffer.js:236-245 | as written, play to the natural end, seek, play: the first end is delivered, the second is swallowed |
| TransportBuffer.SeekAfterNaturalEndForwards | public/js/audioTransportBuffer.js:236-245 | with the corrected seek the same sequence delivers both ends |
| TransportBuffer.Dispose | public/js/audioTransportBuffer.js:279-293 | the first call disposes the wrapper, swallowing any error it throws, and nulls both references; a later call disposes nothing |
| TransportBuffer.Duration | public/js/audioTransportBuffer.js:190-192 | forwards the wrapper's duration; after dispose it throws TypeError |
| TransportBuffer.CurrentTime | public/js/audioTransportBuffer.js:198-200 | forwards the wrapper's elapsed time; after dispose it throws TypeError |
| TransportBuffer.CompensationGain | public/js/audioTransportBuffer.js:78-83 | the gain lies in (0, 1]; at or above 48000 Hz it scales the rate to 48000; at or below 48000, or for a non-finite rate, it is 1 |
| TransportBuffer.CompensationExamples | public/js/audioTransportBuffer.js:150-155 | the gain is 1 at 48000 Hz, 0.5 at 96000 Hz, and 1 for 0 or a non-number |
| TransportBuffer.CompensationMonotone | public/js/audioTransportBuffer.js:78-83 | the attenuation never rises as the device rate rises |
| TransportBuffer.FirstEndedForwarded | public/js/audioTransportBuffer.js:31-50 | the first ended event after construction reaches the callback |
| TransportBuffer.SeekSwallowsExactlyOne | public/js/audioTransportBuffer.js:236-245 | after a seek the next ended event is swallowed and the one after it is forwarded |
| TransportBuffer.OnEndedReplaces | public/js/audioTransportBuffer.js:271-274 | without a callback an ended event calls nothing; with two registrations only the second is called |
| TransportBuffer.DisposeIsIdempotent | public/js/audioTransportBuffer.js:279-293 | disposing twice is disposing once |
| TransportBuffer.SeekWhileStoppedSwallowsNaturalEnd | public/js/audioTransportBuffer.js:236-245 | as written, a seek while nothing plays leaves the flag raised, so the natural end of the next playback is swallowed |
| TransportBuffer.SeekWhileStoppedForwardsNaturalEnd | public/js/audioTransportBuffer.js:236-245 | with the corrected seek the same sequence delivers the natural end |

## Left out

- Fetching, XHR and base64 decoding of the HRIR and chunk files, and `decodeAudioData`. Each task's outcome is an event (`BufferLists.Event`), so the model covers every order in which callbacks can arrive, but not their contents.
- The HRIR base64 literals, `Polyfill` and browser detection, and `Utils.log`. None of them decides anything the model tracks.
- `Utils.invertMatrix4` and `setRotationMatrixFromCamera`. These are floating-point matrix inversion.
- `splitBufferbyChannel`. It returns an undefined variable and is never called by the modelled code.
- The first `BufferList.prototype.abort`. A second definition replaces it before any call, and only that second one is modelled.
- Convolvers.SetFoaHrirs, Convolvers.SetHoaHrirs, Convolvers.CreateFoaConvolver, Convolvers.CreateHoaConvolver: of the ConvolverNode buffer setter's two NotSupportedError cases only the channel count (other than 1, 2 or 4) is modelled. A buffer whose sample rate differs from the context's is not: the model has no context sample rate, and every HRIR comes from `decodeAudioData` on the renderer's own context, which resamples to that rate.
- The engine's channel limit for `createBuffer`. The Web Audio API leaves the exact maximum to the engine and requires at least 32, so the merge takes it as a parameter (`AudioBuffers.ChannelLimit`). createBuffer's other failures, a length of 0 and a sample rate outside [3000, 768000], cannot arise, because every modelled `AudioBuffer` has at least one frame and a sample rate in that range.
- HoaRotator.Entry: the values of the U/V/W recurrence terms (`getP`, `getU`, `getV`, `getW`) are modelled, but no numeric property of the recomputed bands is claimed (for example, that they form a rotation). Only the addressing and the vanishing coefficients are proved.
- The renderers' input channel-count settings, convolver `normalize`, and the inverter's gain value of -1. The inverter is a node identity; its sign is a comment.
- The audio itself: signal flow through gains and convolvers. Only the first-order rotator's per-frame arithmetic is modelled (`FoaRotator.Render`).
- The visualiser path: `startPublishingAudioUpdates`, `stopPublishingAudioUpdates` and the audio collector worklet. `buildDecoderMatrixWithMaxRe` reads `gridData`, whose import is commented out (public/js/sphericalHarmonics.js:21), so its first line (:31) throws a ReferenceError whenever it is called. Its two steps, `evaluateSH` and `applyMaxReWeights`, are modelled.
- SphericalHarmonics.ApplyMaxRe: the source scales the matrix in place and returns the same array; the model returns the scaled matrix as a new value. Aliasing is not modelled.
- The 17 ms `setInterval` and `Date.now`. The clock is the `nowMs` parameter of `Play` and `Tick`.
- The `AudioParam` exponential ramp of the gain setter. The state records only the ramp target.
- The ended-callback bodies and their `try`/`catch`. A callback is an identity, and `TransportBuffer.Ended` reports which callback would be called.
- OmnitoneWrapper.SetOrder, SetChannelMap and SetLoop: plain field stores with no contract of their own. Their effect is stated where it matters (`OrderChangeRetargetsValidation`).
- The `volume` getter: it always returns the constructor's value 1, because the setter never writes it.
- The `loop` getter and the `order`, `channelMap` and `renderingMode` getters. These are plain reads.
- OmnitoneWrapper.FinishLoad: the merge error text and the logging are not modelled. The progress callback is kept but its calls are not: the loader calls it on every XHR progress event whose length is computable until the load is aborted (omnitone.esm.js:276-289), and those events are not modelled.
- OmnitoneWrapper.BufferLoadedGuard: `Number.isFinite` is not modelled, because reals have no infinity or NaN. Only the positivity check is stated.
- OmnitoneWrapper.Initialize: the audio context singleton (`audioContextService.js`) is a boolean parameter saying whether `resume()` succeeds. Context construction and the destination node are not modelled. The method is the uninterrupted call; interleavings with `dispose()` are the compositions of its continuations stated in `LateInitializeAfterDispose` and `DisposeDuringRendererAwait`. Two overlapping `initialize()` calls are not composed: each would create its own input gain and renderer, and the second's would overwrite the first's.
- OmnitoneWrapper.StartLoad: one `load()` at a time is assumed. The wrapper has a single `currentLoad`, and its task events carry no load identity. In the source a second `load()` while one is running starts a second loader, and both continuations later run and assign `#contentBuffer` in the order they settle. The first call's `finally` also nulls the second call's `#currentLoadPromise`, so `abortLoad` can no longer reach the second load.
- OmnitoneWrapper.Good: the invariant does not hold after a `dispose()` during initialize()'s renderer await when the wrapper names the bypass or off mode. The renderer is then kept in its initial ambisonic mode, because the TypeError comes before `setRenderingMode`. `RendererArrived` states exactly when it holds.
- `AudioTransportBuffer.createFromAudioBuffer` and `create`. The factories build a `GainNode` chain and parse ReplayGain metadata, and neither is modelled. Their sample-rate compensation expression is modelled (`TransportBuffer.CompensationGain`).
- Quaternions.AxisAngleNorm: requires only that `sqrt` squares back for this axis's squared length, and states the norm as cos^2 + sin^2 of the half angle rather than 1, because sin and cos are parameters.
- SphericalHarmonics.N3dFactorAt: states that each factor is sqrt(2l+1) of its band. That the factor squares to 2l+1 depends on the `sqrt` parameter being a true square root, which is not assumed.
- SphericalHarmonics.N3dFactorOfChannelZero: requires `sqrt(1) = 1` of the square-root parameter.
- WrapperStatics.VolumeToGainMonotone: assumes monotonicity of `pow(·, 0.2)` on the two volumes as a precondition, because `pow` is a parameter.
- Float32 rounding everywhere. All arithmetic is on mathematical reals.
- `mockup.js`, `test.js`, the latency worklet, `audioContextService.js` and `audioTransport.js`. These are UI glue, a latency measurement page, a context singleton and an interface of throwing stubs.

## Findings

| source | as written | input that shows it | evidently intended | confidence | as-written member | corrected member |
|---|---|---|---|---|---|---|
| public/js/omnitone.esm.js:254-268 | a failed decode reports null through `_updateProgress` before rejecting | one task whose decode fails: the counter reaches 0, the promise resolves with `[null]`, and the rejection is ignored | a failure rejects the promise and never resolves it with a null entry | not executed | BufferLists.LastFailureResolvesWithNull | BufferLists.CorrectedNeverResolvesWithNull |
| public/js/omnitone.esm.js:628-632 | the ready handler calls `setRenderingMode(this._config.renderingMode)`, which returns at once because the mode equals the stored one | a first-order renderer configured with `renderingMode: "bypass"`: once ready it reports bypass but still convolves | the configured mode's wiring is installed once the HRIRs are in | not executed | Renderers.ConfiguredBypassNeverApplied | Renderers.OnHrirsLoadedCorrected |
| public/js/omnitone.esm.js:130-146 | the 32-channel limit is checked on the total before each chunk is added, never on the final total | a 32-channel and a 16-channel buffer pass every check: the 32-channel guard is bypassed, and any error then comes from createBuffer (48 channels on an engine that allows them) | the merge throws its own error for a total above 32 | not executed | AudioBuffers.MergeAdmitsMoreThanMaxChannels | AudioBuffers.MergeByChannelCorrected |
| public/js/omnitoneWrapper.js:750-771 | `load(fileUrls)` hands a single URL string to the loader, which indexes it as an array | `load("a.wav")` starts five tasks, for "a", ".", "w", "a" and "v" | a single URL is fetched as one chunk | not executed | OmnitoneWrapper.SingleUrlIsSplit | OmnitoneWrapper.RequestedUrls |
| public/js/audioTransportBuffer.js:236-245 | `_seek` raises the suppression flag even when no source is playing | stop (or play to the natural end), then seek, then play to the natural end: that end event is swallowed | the flag is raised only when the seek stops a source that is still sounding, since only then does the stop fire an ended event | not executed | TransportBuffer.SeekWhileStoppedSwallowsNaturalEnd, TransportBuffer.SeekAfterNaturalEndSwallows | TransportBuffer.SeekWhileStoppedForwardsNaturalEnd, TransportBuffer.SeekAfterNaturalEndForwards |
| public/js/omnitone.esm.js:927-939 | `HOARotator.getRotationMatrix3` writes the 4x4 block positions into a 9-element array, so the writes to indices 9 and 10 are lost and indices 3 and 7 stay 0 | set the identity with setRotationMatrix3, then read it back: [1,0,0,0,0,1,0,0,0] | the 3x3 matrix that was set, as the first-order rotator returns it | not executed | HoaRotator.GetRotationMatrix3AsWrittenLosesIdentity | HoaRotator.GetSet3RoundTrip |
