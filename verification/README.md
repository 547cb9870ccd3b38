# The virtio FastRPC front end, modelled and proved in Dafny

`drivers/virtual_fastrpc/dsp` lets a guest call procedures on a DSP through a remote side that
owns the hardware. Requests and responses travel in fixed-size buffers over two virtqueues.
Around that transport the driver keeps reference-counted buffer mappings, a cache of internal
buffers, interrupted and asynchronous invocations, and a message layout computed in several
passes that must agree.

The project has one specification per part, written as functions and state machines on values;
classes and methods that update fields, arrays and lists in place as the driver does and are
proved equal to the specification; and theorems about the specification over every run.

| files | part |
|---|---|
| `bits.dfy`, `page_alloc.dfy` | the page allocation loop over a bit mask of orders |
| `map_table.dfy`, `map_ledger.dfy`, `map_runs.dfy`, `slots.dfy`, `map_search.dfy`, `mmap_ops.dfy` | the mapping table, the ledger of its holders, runs, the tables of contexts, what the searches find, the in-place operations |
| `transport.dfy`, `transport_runs.dfy`, `exchange.dfy`, `msg_ops.dfy` | message table, virtqueues and buffers shared by all files; runs that take a message to its answer |
| `invoke.dfy`, `invoke_runs.dfy`, `invoke_restart.dfy`, `invoke_progress.dfy` | contexts, interrupted waits and the async queue on top of the transport; restarted calls; what a context can do next |
| `wire.dfy`, `layout.dfy`, `marshal.dfy`, `message_fill.dfy`, `message_read.dfy`, `message_view.dfy` | the invoke message, byte by byte, its round trip, and every field as a reader finds it |
| `buf_cache.dfy`, `buf_ops.dfy` | the best-fit buffer cache and its teardown |
| `file_state.dfy`, `file_release.dfy` | one file with all its parts, and its release |
| `session.dfy`, `session_net.dfy`, `session_domain.dfy` | session state, alone and on the transport with any number of threads |
| `capability.dfy`, `capability_net.dfy`, `capability_races.dfy` | capability cache, likewise |
| `pools.dfy` | buffer pool setup |

Six statements that one would expect turn out false of the code. Each has a concrete case
that shows it and an exact condition under which it holds:

- Reference counts equal their holders exactly when every step is `Regular`
  (`MapLedger.StepExact`). An object mapped at address 0 can be freed by an fdlist entry meant
  for another (`MapRuns.FdlistCanFreeAnotherObject`); with non-null addresses no fdlist can do
  harm (`MapRuns.EveryFdlistEntryIsRegular`). File release can loop forever
  (`MapRuns.TeardownCanHang`, `MapRuns.TeardownEnds`).
- Freeing a message keeps the shared tables in order exactly when its request was never sent or
  has been answered (`TransportRuns.ReleaseExact`, `TransportRuns.ReleaseMsgsExact`); file release
  frees unanswered ones too (`TransportRuns.StaleAnswerIsMisdelivered`), and a run leads there
  (`Exchange.StaleAnswerIsReached`).
- What a query about a channel caches is right exactly when the session channel and the queried
  channel agree (`Capability.QueryExact`, `Capability.ForeignDomainIsWrong`).
- The table is fetched without a lock. A query that copies its answer over a cached table resets
  the async entry until it forces it again, and a reader in between gets the wrong value
  (`CapabilityRaces.OverlapIsReached`). The cache stays right exactly when no step resets that
  entry of a cached table (`CapabilityNet.StepExact`). This holds in every run in which no two
  fetches of one channel overlap (`CapabilityNet.CacheInRuns`), and whenever two do there is a
  run in which it fails (`CapabilityRaces.OverlapFails`).
- The domain of a session is tested and stored without a lock, so two GETINFO calls can set it
  twice (`SessionDomain.DomainCanChange`). It is set at most once when overlapping calls agree
  (`SessionDomain.DomainIsSetOnce`), and once two disagree there is a run that replaces it
  (`SessionDomain.SafeExact`, `SessionDomain.UnsafeFails`).
- The payload lengths in the descriptors lead a reader to every argument exactly when each DMA
  handle without a mapping before it finds a zero left in the message buffer, because the code
  does not write the descriptor of such a handle (`MessageView.SlotExact`,
  `MessageView.StaleLengthMisleads`).

Assumptions about the remote side: it echoes the message id it was sent, answers each request
once, and echoes the length; the round trip also assumes that it leaves the descriptors of a
message as they were. A lock-protected section is one atomic step. Where the code takes no lock,
for the domain, the channel id, the initialised mark and the capability table, every test and
every write is a step of its own. Runs are arbitrary interleavings of such steps. Kernel calls
that can fail are parameters whose value is arbitrary.

## Model

| member | source | states |
|---|---|---|
| PageAlloc.AllocPages | drivers/virtual_fastrpc/dsp/virtio_fastrpc_mem.c:20-68 | For every allocator behaviour the calls made are the greedy trace; success returns exactly `count` pages, failure frees exactly the pages obtained, last one first. |
| PageAlloc.TryOrders | drivers/virtual_fastrpc/dsp/virtio_fastrpc_mem.c:43-59 | The inner loop keeps the mask of the form 2^k - 1, never subtracts more than is left, and stops at a granted block or after order 0. |
| PageAlloc.FreePages | drivers/virtual_fastrpc/dsp/virtio_fastrpc_mem.c:13-18 | Frees every page of the table once, from the last to the first. |
| PageAlloc.AllocationProperties | drivers/virtual_fastrpc/dsp/virtio_fastrpc_mem.c:20-68 | For every allocator: orders never rise, NORETRY exactly above order 0, at most MAX_ORDER + 1 refusals, all pages or a last refusal of order 0, distinct pages; for one that grants exactly the orders up to t, count / 2^t + popcount(count mod 2^t) blocks. |
| PageAlloc.TraceExact | drivers/virtual_fastrpc/dsp/virtio_fastrpc_mem.c:34-66 | Either exactly the wanted pages are obtained, or the last call is a refusal of order 0 and some are missing. |
| PageAlloc.TraceRefusals | drivers/virtual_fastrpc/dsp/virtio_fastrpc_mem.c:34-66 | Each order is refused at most once, so refusals are bounded by the number of orders. |
| PageAlloc.PagesDiffer | drivers/virtual_fastrpc/dsp/virtio_fastrpc_mem.c:53-65 | No page is obtained twice when the kernel hands out disjoint blocks. |
| PageAlloc.TraceOptimal | drivers/virtual_fastrpc/dsp/virtio_fastrpc_mem.c:34-66 | An allocator that grants exactly the orders up to t is asked for the minimal number of blocks. |
| PageAlloc.FewestBlocks | drivers/virtual_fastrpc/dsp/virtio_fastrpc_mem.c:34-66 | No splitting of the request into blocks of order at most t uses fewer blocks than the closed form. |
| PageAlloc.MinChunksClosedForm | drivers/virtual_fastrpc/dsp/virtio_fastrpc_mem.c:34-66 | The minimum equals whole blocks of the top order plus one block per set bit below it. |
| MapTable.FirstMatchAt | drivers/virtual_fastrpc/dsp/virtio_fastrpc_mem.c:330-365 | A list search returns the first object that satisfies the test, and nothing only when there is none. |
| MapSearch.LookupExact | drivers/virtual_fastrpc/dsp/virtio_fastrpc_mem.c:345-360 | In the fields of the objects: the search returns an object if and only if it is the first listed one with this descriptor whose range, on unsigned sums, contains the requested one. |
| MapSearch.ReusedExact | drivers/virtual_fastrpc/dsp/virtio_fastrpc_mem.c:367-385 | An object is reused if and only if the range does not wrap around, no heap is asked for, it is that first object, and its count has room. |
| MapSearch.CreateExact | drivers/virtual_fastrpc/dsp/virtio_fastrpc_mem.c:367-441 | A reused object gets one reference; otherwise a new object with exactly this descriptor, range and flags goes to the head of the list, if it can be made; nothing else changes. |
| MapSearch.CreatedForFd | drivers/virtual_fastrpc/dsp/virtio_fastrpc_mem.c:367-441 | Whatever is returned is listed, has the descriptor asked for, and, without wrap-around, contains the whole range. |
| MapSearch.HandlePassMapsFds | drivers/virtual_fastrpc/dsp/virtio_fastrpc_core.c:780-805 | After a successful handle pass every handle with a descriptor has a mapping of that very descriptor, and the others none. |
| MapSearch.SizePassMapsBuffers | drivers/virtual_fastrpc/dsp/virtio_fastrpc_core.c:755-778 | After a successful sizing pass every buffer passed with a descriptor has a mapping of it that contains the buffer, and the others none. |
| MapSearch.FdEntryExact | drivers/virtual_fastrpc/dsp/virtio_fastrpc_core.c:1113-1124 | An fdlist entry touches only the first listed object of its descriptor at address 0, and never one of another descriptor. |
| MapSearch.CtxDropExact | drivers/virtual_fastrpc/dsp/virtio_fastrpc_mem.c:281-328 | Releasing a reference of an invoke takes one off each count of one object, unlinks and frees it with the last, and touches nothing else. |
| MapSearch.FdlistLeavesOthers | drivers/virtual_fastrpc/dsp/virtio_fastrpc_core.c:1113-1124 | A whole fdlist changes no object whose descriptor it does not name. |
| MapSearch.FdlistStopsAtZero | drivers/virtual_fastrpc/dsp/virtio_fastrpc_core.c:1113-1116 | Entries behind the first zero have no effect. |
| MapSearch.RemoveExact | drivers/virtual_fastrpc/dsp/virtio_fastrpc_mem.c:227-254 | An unmap takes off the first listed object with the descriptor (if one is named), the remote address and the length given, referenced once or twice with KEEP_MAP and used by no invoke; if there is none, nothing changes. |
| MapSearch.RemoveFdExact | drivers/virtual_fastrpc/dsp/virtio_fastrpc_mem.c:256-279 | munmap_fd drops one reference of each listed KEEP_MAP object of the descriptor, frees it with its last, and changes no other object. |
| MapSearch.CountExact | drivers/virtual_fastrpc/dsp/virtio_fastrpc_mem.c:262-276 | The number it reports is the number of these objects. |
| MapSearch.RemoveFdsTouches | drivers/virtual_fastrpc/dsp/virtio_fastrpc_mem.c:256-279 | As a step of the ledger it touches only listed KEEP_MAP objects of the descriptor. |
| MapSearch.AcquiringMaps | drivers/virtual_fastrpc/dsp/virtio_fastrpc_mem.c:367-441 | Each mapping step of the ledger enters one holder of an object that maps the descriptor and range the step names, or none when it cannot be made. |
| MapSearch.UnmappingTakes | drivers/virtual_fastrpc/dsp/virtio_fastrpc_core.c:2011-2048 | What is being unmapped is the first listed object for the remote range; if there is none the call changes nothing. |
| MapSearch.MappedCanBeUnmapped | drivers/virtual_fastrpc/dsp/virtio_fastrpc_core.c:1489-1534 | The remote address stored by a finished mapping, with its length, unmaps that object again, by descriptor or without. |
| MapSearch.StepDoes | drivers/virtual_fastrpc/dsp/virtio_fastrpc_core.c:2011-2048 | Each releasing step drops exactly one reference of its own kind; a finished unmap frees the object, a failed one lists it again, and both end the request. |
| MapLedger.StepExact | drivers/virtual_fastrpc/dsp/virtio_fastrpc_mem.c:211-441 | For each critical section under the map lock, in a state where every count equals its holders, the counts are right afterwards if and only if the step is regular. |
| MapLedger.AcquireKeeps | drivers/virtual_fastrpc/dsp/virtio_fastrpc_mem.c:367-441 | Creating or reusing a mapping for a slot, a handle or an mmap enters exactly one holder (and a pin for a new KEEP_MAP object); a failed create touches no listed object. |
| MapLedger.DropExact | drivers/virtual_fastrpc/dsp/virtio_fastrpc_mem.c:281-328 | Dropping a reference keeps the counts right exactly when that holder had one. |
| MapLedger.UnmapBeginExact | drivers/virtual_fastrpc/dsp/virtio_fastrpc_mem.c:227-254 | Taking an object off the list keeps the counts right exactly when a KEEP_MAP object still has its pin besides the one reference unmapped. |
| MapLedger.DropPinsExact | drivers/virtual_fastrpc/dsp/virtio_fastrpc_mem.c:256-279 | munmap_fd keeps the counts right exactly when every object of the descriptor still has its pin; the branch that reports abnormal counts drops it all the same. |
| MapRuns.LedgerOverRuns | drivers/virtual_fastrpc/dsp/virtio_fastrpc_core.c:1087-1124 | Over every interleaving, refs = slots + handles + pin + mmap references and ctx_refs = slots + handles hold throughout if and only if every step of the run is regular. |
| MapRuns.LedgerForVisibleRuns | drivers/virtual_fastrpc/dsp/virtio_fastrpc_core.c:1473-1534 | The same conclusion from restrictions on the calls alone: buffers and mmap requests name non-null addresses, unmapped remote addresses are not zero, no failed munmap of a KEEP_MAP object, no abnormal munmap_fd. What the remote side puts into an fdlist is arbitrary. |
| MapRuns.LedgerFromTheStart | drivers/virtual_fastrpc/dsp/virtio_fastrpc_core.c:1473-1534 | From the opening of the file, while the callers keep to these restrictions, every count is the number of holders after every step. |
| MapRuns.EveryFdlistEntryIsRegular | drivers/virtual_fastrpc/dsp/virtio_fastrpc_core.c:1113-1124 | In such runs an fdlist entry for any descriptor finds an object with an outstanding handle reference, or none. |
| MapRuns.HeldIsAlive | drivers/virtual_fastrpc/dsp/virtio_fastrpc_core.c:339-345 | An object with a holder is allocated, its count is the number of holders, and it is listed or being unmapped: none is freed while held. |
| MapRuns.UnmappingIsExclusiveInRuns | drivers/virtual_fastrpc/dsp/virtio_fastrpc_core.c:2011-2048 | Between removal and free or re-add, no sequence of other steps changes the object or lists it. |
| MapRuns.UnmapIsTransactional | drivers/virtual_fastrpc/dsp/virtio_fastrpc_core.c:2011-2048 | A failed unmap, whatever ran in between, leaves the object and its holders as they were if and only if the pin is re-taken (mem_unmap) or there was none. |
| MapRuns.UnmapRestoresTable | drivers/virtual_fastrpc/dsp/virtio_fastrpc_core.c:1512-1531 | With nothing in between, a failed unmap gives the whole table back as a multiset, with all holders. |
| MapRuns.TeardownEnds | drivers/virtual_fastrpc/dsp/virtio_fastrpc_core.c:562-572 | The map loop of file release ends if and only if every listed object has refs of at least 1, ctx_refs of at least 0 and no heap flag. |
| MapRuns.TeardownAfterRegularRun | drivers/virtual_fastrpc/dsp/virtio_fastrpc_core.c:562-572 | After any run with right counts the map loop ends with an empty list, and what stays allocated is exactly what was never listed or is being unmapped. |
| MapRuns.TeardownCanHang | drivers/virtual_fastrpc/dsp/virtio_fastrpc_core.c:1527-1531 | A concrete run: two failed munmaps of one KEEP_MAP object leave it listed with count 0, and the map loop of file release never ends. |
| MapRuns.FdlistCanFreeAnotherObject | drivers/virtual_fastrpc/dsp/virtio_fastrpc_core.c:1113-1124 | Without the restriction on addresses: a concrete reachable state where an fdlist entry for an outstanding handle frees a different object, mapped at address 0, while its mmap still counts on it. |
| MapRuns.TwoOfOneFdReached | drivers/virtual_fastrpc/dsp/virtio_fastrpc_core.c:1512-1531 | That state is reached by mapping a handle while a munmap of the older object runs and then fails. |
| MmapOps.FileMaps.Find | drivers/virtual_fastrpc/dsp/virtio_fastrpc_mem.c:330-365 | Overflow, heap, missing and too-many-references outcomes; what is found is the first listed object with this descriptor and range, and nothing is found only when no listed object has them. |
| MmapOps.FileMaps.Free | drivers/virtual_fastrpc/dsp/virtio_fastrpc_mem.c:281-328 | Updates the list and the objects in place as the specification of freeing says; the null pointer is ignored. |
| MmapOps.FileMaps.Add | drivers/virtual_fastrpc/dsp/virtio_fastrpc_mem.c:211-225 | Puts the object at the head of its list. |
| MmapOps.FileMaps.Create | drivers/virtual_fastrpc/dsp/virtio_fastrpc_mem.c:367-441 | Reuse, creation and every failure, in place, equal the specification the ledger is proved about; what is returned is listed and has the descriptor asked for. |
| MmapOps.FileMaps.Remove | drivers/virtual_fastrpc/dsp/virtio_fastrpc_mem.c:227-254 | Unlinks the first removable object and drops its KEEP_MAP pin; descriptor, remote address and length of what is removed, and that nothing fits when nothing is. |
| MmapOps.FileMaps.RemoveFd | drivers/virtual_fastrpc/dsp/virtio_fastrpc_mem.c:256-279 | Frees every matching object, counts the matches, and reports an abnormal count exactly when one of them had refs above 1 or context references. |
| MmapOps.FileMaps.MapHandles | drivers/virtual_fastrpc/dsp/virtio_fastrpc_core.c:780-805 | The handle pass with its roll-back equals its specification. |
| MmapOps.FileMaps.ReleaseFdlist | drivers/virtual_fastrpc/dsp/virtio_fastrpc_core.c:1113-1124 | The fdlist loop equals its specification. |
| MmapOps.FileMaps.ReleaseSlots | drivers/virtual_fastrpc/dsp/virtio_fastrpc_core.c:339-345 | Drops the references of all entries of the table it is given; an entry that `put_args` has cleared is skipped. |
| MmapOps.FileMaps.MapBuffers | drivers/virtual_fastrpc/dsp/virtio_fastrpc_core.c:756-777 | The sizing pass fills the table in place and stops at the first failure, leaving the rest empty. |
| MmapOps.FileMaps.PutOutputs | drivers/virtual_fastrpc/dsp/virtio_fastrpc_core.c:1087-1111 | The output loop, wherever it stops, drops the mapped outputs and clears exactly their entries. |
| MmapOps.FileMaps.FreeAll | drivers/virtual_fastrpc/dsp/virtio_fastrpc_core.c:562-572 | When every count is positive the loop terminates and frees each listed object exactly once, in list order. |
| Slots.TakeHandlesKeeps | drivers/virtual_fastrpc/dsp/virtio_fastrpc_core.c:780-805 | Success enters one handle reference per request; failure leaves the ledger as before the pass. |
| Slots.FailedHandlePass | drivers/virtual_fastrpc/dsp/virtio_fastrpc_core.c:793-801 | After a failed handle pass the same objects are listed with the same two counts. |
| Slots.ReleaseAllKeeps | drivers/virtual_fastrpc/dsp/virtio_fastrpc_core.c:339-345 | Giving back the slots of a context drops exactly their references. |
| Slots.SizedKeeps | drivers/virtual_fastrpc/dsp/virtio_fastrpc_core.c:756-777 | Wherever the sizing pass stops, it has entered exactly the references in its table. |
| Slots.PutThenFree | drivers/virtual_fastrpc/dsp/virtio_fastrpc_core.c:1087-1094 | Wherever `put_args` stops, its drops followed by those of `context_free` are every reference in the table, each once. |
| Slots.InvokeIsBalanced | drivers/virtual_fastrpc/dsp/virtio_fastrpc_core.c:723-1131 | For every outcome of the sizing pass, the handle pass and `put_args`, the slot references after an invoke are exactly those before it. |
| FileState.StepExact | drivers/virtual_fastrpc/dsp/virtio_fastrpc_core.c:325-371 | All threads, contexts and lists of a file together: the slot references in the ledger are exactly those in the tables of the contexts, contexts are on the list their state says, buffers belong to live contexts; every step keeps this, and only mmap-side calls and fdlist entries have a condition, which is exact. That references are dropped by their holder is derived, not assumed. |
| FileState.SlotMapsBuffer | drivers/virtual_fastrpc/dsp/virtio_fastrpc_core.c:755-775 | The slot filled for a buffer holds a mapping of its descriptor that contains it, unless none can be made; no other slot changes. |
| FileState.NewestFirst | drivers/virtual_fastrpc/dsp/virtio_fastrpc_core.c:686-706 | New and resumed contexts go to the head of the pending list, interrupted ones to the head of theirs. |
| FileState.StepDoes | drivers/virtual_fastrpc/dsp/virtio_fastrpc_core.c:1087-1094 | An output that is put is cleared and its reference dropped; a handle pass enters one reference per handle or none; a buffer taken or made is held by its slot; a command is on the list from its saving to its resumption. |
| FileState.ContextFreeEmpties | drivers/virtual_fastrpc/dsp/virtio_fastrpc_core.c:325-371 | After the slots and the descriptors of a context are released, nothing keeps the context itself from being freed. |
| FileState.PutOutputKeeps | drivers/virtual_fastrpc/dsp/virtio_fastrpc_core.c:1087-1094 | Dropping an output once and clearing its entry keeps everything. |
| FileState.FreeSlotsKeeps | drivers/virtual_fastrpc/dsp/virtio_fastrpc_core.c:339-345 | `context_free` drops what is left, whatever was dropped before, and leaves an empty table. |
| FileState.RunKeeps | drivers/virtual_fastrpc/dsp/virtio_fastrpc_core.c:529-577 | The same after every run whose steps are all regular. |
| FileState.VisibleIsRegular | drivers/virtual_fastrpc/dsp/virtio_fastrpc_core.c:1087-1124 | In a clean state every step of the file within restrictions on calls and unmap outcomes is regular, keeps all invariants and leaves a clean state; fdlists are arbitrary. |
| FileState.VisibleRunKeeps | drivers/virtual_fastrpc/dsp/virtio_fastrpc_core.c:529-577 | So every run within these restrictions is regular and ends with all invariants, whatever the remote side puts into its fdlists. |
| FileState.LeakedStays | drivers/virtual_fastrpc/dsp/virtio_fastrpc_core.c:1557-1577 | A message whose interrupted command could not be saved is never reached again by any step. |
| FileRelease.RunsEndReady | drivers/virtual_fastrpc/dsp/virtio_fastrpc_core.c:529-577 | After every run from the opening of the file within restrictions on calls and unmap outcomes (fdlists arbitrary), in which all calls have ended, the file is in the state that file release needs. |
| FileRelease.LeakedSurvivesRelease | drivers/virtual_fastrpc/dsp/virtio_fastrpc_core.c:1564-1566 | A command message that could not be saved is not among those file release frees: it stays in the shared table, with a response it may have got. |
| FileRelease.FreeFirstReady | drivers/virtual_fastrpc/dsp/virtio_fastrpc_core.c:325-371 | Freeing one context, with its slots, message and descriptors, keeps that state for the rest. |
| FileRelease.OpenFile.ContextFree | drivers/virtual_fastrpc/dsp/virtio_fastrpc_core.c:325-371 | Slots, message and descriptors of the context are released and nothing else. |
| FileRelease.OpenFile.ContextListDtor | drivers/virtual_fastrpc/dsp/virtio_fastrpc_core.c:373-404 | The two loops free every interrupted and then every pending context, each once, in list order. |
| FileRelease.OpenFile.Release | drivers/virtual_fastrpc/dsp/virtio_fastrpc_core.c:529-577 | In source order on one file: the context, cached, remote, command and map lists end empty; each context is freed once; no slot reference, buffer or page is left, and of the messages exactly those on a list are gone; the mappings freed last are exactly those that a DMA handle, an mmap or a pin still holds; only mappings that were never listed stay; the shared message tables stay in order if and only if every request had been answered. |
| Slots.FdlistIsARun | drivers/virtual_fastrpc/dsp/virtio_fastrpc_core.c:1113-1124 | Working off an fdlist is a run of the ledger, so its counts stay right exactly when each entry finds an object with an outstanding handle reference. |
| Transport.StepKeeps | drivers/virtual_fastrpc/dsp/virtio_fastrpc_core.c:227-285 | Every locked section of any thread, the receive interrupt and the remote side keeps the message, buffer and in-flight invariants. The owner of a message frees it unsent, after reposting, or when its own test for a response fails. |
| Transport.TxHasRoom | drivers/virtual_fastrpc/dsp/virtio_fastrpc_queue.c:31-51 | A message that is ready to be sent always finds room in the send ring. |
| Transport.RxHasRoom | drivers/virtual_fastrpc/dsp/virtio_fastrpc_queue.c:53-73 | A receive buffer held by a message always finds room in the receive ring. |
| TransportRuns.RunKeeps | drivers/virtual_fastrpc/dsp/virtio_fastrpc_base.c:712-774 | The invariants hold after every interleaving. |
| TransportRuns.WaiterSeesItsOwnResponse | drivers/virtual_fastrpc/dsp/virtio_fastrpc_core.c:1250-1273 | In every run, a waiter past its completion has a non-null response, and it answers its own request. |
| TransportRuns.IdsAreNotReissued | drivers/virtual_fastrpc/dsp/virtio_fastrpc_core.c:257-265 | An id whose request is in flight is never given out again, and no two packets in flight share an id. |
| TransportRuns.ResponseIsDelivered | drivers/virtual_fastrpc/dsp/virtio_fastrpc_base.c:712-742 | The handler always finds the waiting message a response answers; none is rejected and no earlier response is overwritten. |
| TransportRuns.TxBuffersAreExclusive | drivers/virtual_fastrpc/dsp/virtio_fastrpc_queue.c:9-29 | Two messages never fill the same send buffer, and a buffer being filled is not in the ring, taken or waiting to be recycled. |
| TransportRuns.RingsNeverFull | drivers/virtual_fastrpc/dsp/virtio_fastrpc_queue.c:31-73 | Sending and reposting never fail for lack of room. |
| TransportRuns.RxConservation | drivers/virtual_fastrpc/dsp/virtio_fastrpc_queue.c:53-73 | Posted + used + in the handler + held by messages equals `num_bufs`, and none is lost. |
| TransportRuns.TxConservation | drivers/virtual_fastrpc/dsp/virtio_fastrpc_core.c:276-284 | Each send buffer is in exactly one of six places; one given up by a failed request is in none of the others. |
| TransportRuns.FreeExact | drivers/virtual_fastrpc/dsp/virtio_fastrpc_core.c:227-240 | Freeing a message in any state keeps the invariants if and only if it was never sent or its response buffer has been reposted. |
| TransportRuns.ReleaseExact | drivers/virtual_fastrpc/dsp/virtio_fastrpc_core.c:520-524 | The end of every command (repost the response if there is one, free the message), at any stage before the repost: the invariants survive if and only if the request is not waiting unanswered, and a response buffer, which was not posted, is posted. |
| TransportRuns.RepostedOnce | drivers/virtual_fastrpc/dsp/virtio_fastrpc_core.c:1742-1745 | A message past its wait cannot be freed before its response buffer is reposted; after that it can, and the buffer cannot be reposted again. |
| TransportRuns.ReleaseMsgsExact | drivers/virtual_fastrpc/dsp/virtio_fastrpc_core.c:448-477 | Releasing a list of sent messages removes exactly these, and keeps the shared tables in order if and only if all had been answered. |
| TransportRuns.StaleAnswerIsMisdelivered | drivers/virtual_fastrpc/dsp/virtio_fastrpc_base.c:712-742 | Otherwise: the answer to a request freed unanswered goes to whichever message has been given its id. |
| Exchange.StaleAnswerIsReached | drivers/virtual_fastrpc/dsp/virtio_fastrpc_base.c:712-742 | A concrete run: on a device with one buffer each way a message is sent, answered and picked up, freed unanswered, its id given out again, and the new message gets the answer. |
| Exchange.Complete | drivers/virtual_fastrpc/dsp/virtio_fastrpc_core.c:1250-1273 | From any reachable state with a free handler and a posted buffer, a filled message can be sent, taken, answered, received and its wait ended, and no other message changes. |
| Exchange.ReadBufferIsReused | drivers/virtual_fastrpc/dsp/virtio_fastrpc_queue.c:9-29 | A send buffer that the remote side has read and given back can be taken by the next message when no fresh one is left. |
| MsgOps.Apps.constructor | drivers/virtual_fastrpc/dsp/virtio_fastrpc_base.c:1014-1030 | The state with an empty table and all receive buffers posted satisfies the invariants. |
| MsgOps.Apps.NewMsg | drivers/virtual_fastrpc/dsp/virtio_fastrpc_core.c:257-271 | The table search takes the first free entry, or fails only with all 256 taken. |
| MsgOps.Apps.GetTxBuf | drivers/virtual_fastrpc/dsp/virtio_fastrpc_queue.c:9-29 | Takes the next unused buffer, or a recycled one, and fails only when neither exists. |
| MsgOps.Apps.AllocMsg | drivers/virtual_fastrpc/dsp/virtio_fastrpc_core.c:242-285 | A message is returned if and only if it fits a buffer, memory is available, one of the 256 table entries is free, and a send buffer is unused or can be recycled; otherwise nothing is kept but the numbering of message objects. On success one table entry and one send buffer are taken and nothing else changes. |
| MsgOps.AllocatesMeans | drivers/virtual_fastrpc/dsp/virtio_fastrpc_core.c:242-285 | The new message has its entry and its send buffer to itself, and all other messages are unchanged. |
| MsgOps.Apps.DeleteMsg | drivers/virtual_fastrpc/dsp/virtio_fastrpc_core.c:227-240 | Clears the entry of a message in any state, if it is its own; exact in when the invariants survive. |
| MsgOps.Apps.SendTxBuf | drivers/virtual_fastrpc/dsp/virtio_fastrpc_queue.c:31-51 | Always succeeds and puts the request with its id into the ring. |
| MsgOps.Apps.RepostRxBuf | drivers/virtual_fastrpc/dsp/virtio_fastrpc_queue.c:53-73 | Puts the response buffer back, or drops it when the ring is full, which does not happen in a valid state. |
| MsgOps.Apps.ReleaseMsg | drivers/virtual_fastrpc/dsp/virtio_fastrpc_core.c:347-357 | Reposts the response if there is one and frees the message; at every stage before the repost the invariants survive if and only if the request is not waiting unanswered. |
| MsgOps.Apps.ReceiveOne | drivers/virtual_fastrpc/dsp/virtio_fastrpc_base.c:712-742 | Stores the response in its message and completes it; never rejects. |
| MsgOps.Apps.ReceiveAll | drivers/virtual_fastrpc/dsp/virtio_fastrpc_base.c:744-774 | Works off all used buffers: each response reaches its own message and answered messages are untouched. |
| MsgOps.Apps.ListFree | drivers/virtual_fastrpc/dsp/virtio_fastrpc_core.c:448-477 | The teardown loop over the commands, answered or not, equals its specification; exact in when the invariants survive. |
| Invoke.StepKeeps | drivers/virtual_fastrpc/dsp/virtio_fastrpc_core.c:1189-1347 | Every step of an invocation, a signal, a restart, the receive interrupt, another file, and of an async waiter that sleeps, reads the count without the lock, is interrupted, or dequeues under the lock, keeps the context, thread, sequence-number and queue invariants. |
| InvokeRestart.RestartedCallResumes | drivers/virtual_fastrpc/dsp/virtio_fastrpc_core.c:579-608 | In every run, with thread and scalars taken from the step that created the context: when its wait was interrupted and the thread is back, it can resume this context if and only if the scalars are the same, is refused with any other, can start no new call, and after resuming waits on the message the call was sent with. |
| InvokeRestart.ContextIsFromItsCall | drivers/virtual_fastrpc/dsp/virtio_fastrpc_core.c:658-661 | A live context has the thread, scalars, kind and sequence number of the call that created it. |
| InvokeRestart.MessageIsTheOneSent | drivers/virtual_fastrpc/dsp/virtio_fastrpc_core.c:579-608 | A context past its set-up has the message it was sent with. |
| InvokeRestart.NumbersCountCalls | drivers/virtual_fastrpc/dsp/virtio_fastrpc_core.c:1200-1200 | The next sequence number is the number of calls made so far, restarted and refused ones included. |
| InvokeProgress.CallsStart | drivers/virtual_fastrpc/dsp/virtio_fastrpc_core.c:579-608 | A thread can start a call if and only if it is in none and has no interrupted one. |
| InvokeProgress.SetupGoesOn | drivers/virtual_fastrpc/dsp/virtio_fastrpc_core.c:242-285 | Before sending, a context can get a message while an entry is free, a send buffer while there is one, can be sent when it has both, and can always be given up. |
| InvokeProgress.WaitGoesOn | drivers/virtual_fastrpc/dsp/virtio_fastrpc_core.c:1250-1273 | A sent synchronous call can be interrupted, and can end its wait if and only if its own response is there. |
| InvokeProgress.InterruptLeaves | drivers/virtual_fastrpc/dsp/virtio_fastrpc_core.c:697-707 | An interruption frees the thread and changes nothing else but the membership of the context. |
| InvokeProgress.EndingGoesOn | drivers/virtual_fastrpc/dsp/virtio_fastrpc_core.c:347-371 | After the wait the response buffer is reposted, and exactly then message and context can be freed. |
| InvokeProgress.EndLeavesNothing | drivers/virtual_fastrpc/dsp/virtio_fastrpc_core.c:325-371 | A call that ends or is given up leaves no context, message or table entry, and its thread idle. |
| InvokeProgress.StepDoes | drivers/virtual_fastrpc/dsp/virtio_fastrpc_core.c:242-285 | The message a context gets is new and its own, its send buffer is entered in it, sending puts the request with its id into the ring, and a thread that waits for a job sleeps. |
| InvokeRuns.SentAtMostOnceInRun | drivers/virtual_fastrpc/dsp/virtio_fastrpc_core.c:1222-1281 | In every run, for every sequence of interruptions and restarts, a context is sent at most once. |
| InvokeRuns.SentOnlyOnce | drivers/virtual_fastrpc/dsp/virtio_fastrpc_core.c:579-609 | After it is sent a context keeps its message and sequence number until it ends and never returns to its set-up. |
| InvokeRuns.OnlySendingLeavesSetup | drivers/virtual_fastrpc/dsp/virtio_fastrpc_core.c:1240-1247 | Sending is the only way out of the set-up that keeps a context alive, and it sends its number once. |
| InvokeRuns.SequenceNumbersAreDistinct | drivers/virtual_fastrpc/dsp/virtio_fastrpc_core.c:1200-1200 | No sequence number is sent twice in any run. |
| InvokeRuns.InterruptedContexts | drivers/virtual_fastrpc/dsp/virtio_fastrpc_core.c:697-707 | Asynchronous contexts are never interrupted, and each thread has at most one interrupted context. |
| InvokeRuns.InterruptedIsStillWaiting | drivers/virtual_fastrpc/dsp/virtio_fastrpc_core.c:579-609 | An interrupted context has its message; the request is in flight or the message holds the response to this very request. |
| InvokeRuns.CountIsLength | drivers/virtual_fastrpc/dsp/virtio_fastrpc_core.c:1176-1187 | Outside the lock sections the job count is the queue length, in every reachable state. |
| InvokeRuns.JobsAreDeliveredInOrder | drivers/virtual_fastrpc/dsp/virtio_fastrpc_core.c:1283-1347 | For every interleaving of completions, unlocked wake-ups, signals and lock sections: completed jobs = delivered jobs followed by the queue, without repetition. |
| InvokeRuns.RaceForOneJob | drivers/virtual_fastrpc/dsp/virtio_fastrpc_core.c:1294-1333 | Two waiters that wake for one job: the first to take the lock gets it, the second finds nothing and sleeps again. |
| InvokeRuns.Served | drivers/virtual_fastrpc/dsp/virtio_fastrpc_core.c:1305-1313 | A woken waiter that finds a job takes the first one, and no other thread has it. |
| InvokeRuns.SignalLosesNothing | drivers/virtual_fastrpc/dsp/virtio_fastrpc_core.c:1295-1304 | An interrupted wait leaves queue, contexts and messages as they are. |
| InvokeRuns.WaitersAreApart | drivers/virtual_fastrpc/dsp/virtio_fastrpc_core.c:1294-1313 | No thread both sleeps and is woken, and neither kind works on a context. |
| InvokeRuns.HeadOfQueueIsReady | drivers/virtual_fastrpc/dsp/virtio_fastrpc_core.c:1305-1320 | The job a woken waiter takes has a message with a non-null response to its own request. |
| InvokeRuns.AsyncResponseIsQueued | drivers/virtual_fastrpc/dsp/virtio_fastrpc_core.c:1176-1187 | A response to an asynchronous job queues it in the same step, and it was not queued before. |
| Wire.LittleEndianRoundTrip | drivers/virtual_fastrpc/dsp/virtio_fastrpc_core.c:103-153 | Fields of the packed structures read back as written. |
| Layout.SlotsInOrder | drivers/virtual_fastrpc/dsp/virtio_fastrpc_core.c:880-1034 | Payload slots follow each other without gap or overlap, on both sizing paths. |
| Layout.HandleRoom | drivers/virtual_fastrpc/dsp/virtio_fastrpc_core.c:811-845 | Handles take the same room whatever was moved to internal buffers. |
| Marshal.SizePass | drivers/virtual_fastrpc/dsp/virtio_fastrpc_core.c:754-778 | Fails exactly when an ION buffer cannot be mapped; otherwise the sums are those of the inline layout, where an empty argument takes no room. |
| Marshal.HandlePass | drivers/virtual_fastrpc/dsp/virtio_fastrpc_core.c:780-805 | The handle sum is the room the handles take after the buffers. |
| Marshal.ResizePass | drivers/virtual_fastrpc/dsp/virtio_fastrpc_core.c:811-845 | Fails exactly when an internal buffer cannot be had; otherwise exactly the plain arguments of a page or more are moved and both sums are those of the new layout. |
| MessageFill.FillBuffer | drivers/virtual_fastrpc/dsp/virtio_fastrpc_core.c:880-996 | One argument: fails exactly on a bad range or a copy fault; otherwise its descriptor and slot are written, nothing else is, and an input is in its slot or internal buffer. |
| MessageFill.FillHandle | drivers/virtual_fastrpc/dsp/virtio_fastrpc_core.c:999-1034 | One handle: descriptor and mapping are written; a handle without a mapping leaves its descriptor bytes as they were. |
| MessageFill.FillPass | drivers/virtual_fastrpc/dsp/virtio_fastrpc_core.c:879-1034 | Ends exactly at the end of the last slot, with every argument placed and nothing else touched. |
| MessageFill.WriteMessage | drivers/virtual_fastrpc/dsp/virtio_fastrpc_core.c:855-1034 | Header, cleared lists and payload: the payload starts where `metalen` ends and the pass ends exactly at `size`; otherwise the error is that of the first argument that cannot be filled in. |
| MessageFill.GetArgs | drivers/virtual_fastrpc/dsp/virtio_fastrpc_core.c:723-1037 | Succeeds if and only if every test it makes does, and then leaves the whole message: header, descriptors, cleared lists, payload, size = metalen + copylen + handlelen <= buf_size, outbufs_offset = payload of the inputs, bytes beyond the size untouched; otherwise the error is that of the first test that fails. |
| MessageView.RemoteSeesHeader | drivers/virtual_fastrpc/dsp/virtio_fastrpc_core.c:855-868 | On the bytes of that message: pid, tid, cid, command, size, message id, preset result, handle, scalars, attributes and sequence number stand at offsets 0, 4, 8, 12, 16, 20, 22, 26, 30, 34 and 38. |
| MessageView.UnansweredReadsAsError | drivers/virtual_fastrpc/dsp/virtio_fastrpc_core.c:864-864 | The result that put_args reads is the preset one, so an unanswered message reads as an error. |
| MessageView.RemoteSeesLists | drivers/virtual_fastrpc/dsp/virtio_fastrpc_core.c:869-877 | The four lists behind the descriptors are zero and the payload starts behind them. |
| MessageView.RemoteSeesMapped | drivers/virtual_fastrpc/dsp/virtio_fastrpc_core.c:891-935 | For a mapped buffer a reader finds attributes, address, length and offset in the descriptor, and fd, references, address, length, entry count and every scatter entry in the slot that the payload lengths lead to. |
| MessageView.MappedLiesInside | drivers/virtual_fastrpc/dsp/virtio_fastrpc_core.c:905-916 | A message is laid out only if the offset and length of every mapped buffer stay within its dma-buf. |
| MessageView.RemoteSeesInternal | drivers/virtual_fastrpc/dsp/virtio_fastrpc_core.c:940-985 | The same for a plain buffer of a page or more when the message would not fit: the reader finds the internal buffer. |
| MessageView.RemoteSeesInline | drivers/virtual_fastrpc/dsp/virtio_fastrpc_core.c:987-1003 | Every other buffer lies in the message itself, inputs with their bytes. |
| MessageView.RemoteSeesHandle | drivers/virtual_fastrpc/dsp/virtio_fastrpc_core.c:1008-1034 | For a DMA handle with a mapping the descriptor is there, and the mapping is found unless a stale length stands before it. |
| MessageView.SlotExact | drivers/virtual_fastrpc/dsp/virtio_fastrpc_core.c:1008-1034 | Adding up the payload lengths leads to the slot of each argument if and only if every handle without a mapping before it has a zero length left in the message buffer; the code does not write that descriptor. |
| MessageView.StaleLengthMisleads | drivers/virtual_fastrpc/dsp/virtio_fastrpc_core.c:1008-1010 | A concrete call: a handle without a mapping before one with a mapping, in a message buffer with a stale length; everything succeeds and the second handle is not found. |
| MessageRead.WireSlotIsSlot | drivers/virtual_fastrpc/dsp/virtio_fastrpc_core.c:1080-1111 | Adding up the payload lengths read from the message gives the offsets of the fill pass. |
| MessageRead.RemoteSeesInputs | drivers/virtual_fastrpc/dsp/virtio_fastrpc_core.c:969-994 | A remote side that knows only the bytes of the message finds every plain input unchanged, inline or through an internal buffer. |
| MessageRead.WriteReadsBack | drivers/virtual_fastrpc/dsp/virtio_fastrpc_core.c:1087-1111 | What the remote side writes as one output is found there again, and the descriptors are kept. |
| MessageRead.WriteLeavesOthers | drivers/virtual_fastrpc/dsp/virtio_fastrpc_core.c:880-996 | Writing one buffer disturbs no other. |
| MessageRead.PutArgs | drivers/virtual_fastrpc/dsp/virtio_fastrpc_core.c:1039-1111 | For any response: the error of a missing one and of the remote result; otherwise it succeeds if and only if every copy does and no length leads out of the buffer, and copies what the lengths in the response say. |
| MessageRead.ReadAtIsSlot | drivers/virtual_fastrpc/dsp/virtio_fastrpc_core.c:1080-1111 | With the descriptors as sent, the walk through the response meets the slots of the fill pass. |
| MessageRead.OutIsRemote | drivers/virtual_fastrpc/dsp/virtio_fastrpc_core.c:1087-1111 | Then every plain output lies in the buffer and is what the remote side left for it. |
| MessageRead.RoundTrip | drivers/virtual_fastrpc/dsp/virtio_fastrpc_core.c:723-1131 | One invoke end to end, for every buffer size and so for both paths: it succeeds if and only if all tests do, and each plain output equals what the remote side produced. |
| BufCache.StepKeeps | drivers/virtual_fastrpc/dsp/virtio_fastrpc_mem.c:107-209 | Every cache operation keeps: counter = list length <= MAX_CACHED_BUFS + 1, each live buffer in exactly one of cached, remote or one context slot, pages taken = pages returned + pages of live buffers. |
| BufCache.BestFit | drivers/virtual_fastrpc/dsp/virtio_fastrpc_mem.c:158-164 | A hit is a smallest cached buffer that fits, the first among equals; a miss means none fits. |
| BufCache.PagesHold | drivers/virtual_fastrpc/dsp/virtio_fastrpc_mem.c:74-74 | The pages taken for a buffer hold it, with less than a page to spare. |
| BufOps.PoolInRuns | drivers/virtual_fastrpc/dsp/virtio_fastrpc_mem.c:107-209 | These hold after every sequence of operations from an empty pool. |
| BufOps.CacheFills | drivers/virtual_fastrpc/dsp/virtio_fastrpc_mem.c:117-123 | The bound MAX_CACHED_BUFS + 1 is reached. |
| BufOps.NothingLeft | drivers/virtual_fastrpc/dsp/virtio_fastrpc_core.c:529-577 | With all lists empty and no context left, every buffer was released and every page returned. |
| BufOps.FileBufs.FindFit | drivers/virtual_fastrpc/dsp/virtio_fastrpc_mem.c:161-164 | The loop computes the best-fit choice. |
| BufOps.FileBufs.Alloc | drivers/virtual_fastrpc/dsp/virtio_fastrpc_mem.c:144-209 | Refuses empty requests, reuses the best fit, otherwise makes a new buffer or fails without a change; the buffer is at least as large as asked. |
| BufOps.FileBufs.AllocRemote | drivers/virtual_fastrpc/dsp/virtio_fastrpc_mem.c:154-202 | Exactly when the size is not zero and memory is available: a new buffer of this size at the head of the remote list, with pages that hold it and less than a page to spare. |
| BufOps.FileBufs.Free | drivers/virtual_fastrpc/dsp/virtio_fastrpc_mem.c:107-142 | A buffer below 8 MiB goes to the head of the cache while it has at most 32 entries; any other is released with its pages. |
| BufOps.FileBufs.FreeRemote | drivers/virtual_fastrpc/dsp/virtio_fastrpc_mem.c:130-142 | Unlinks a remote buffer and releases it with its pages; nothing else changes. |
| BufOps.FileBufs.CachedListFree | drivers/virtual_fastrpc/dsp/virtio_fastrpc_core.c:426-446 | Empties the cache and nothing else. |
| BufOps.FileBufs.RemoteListFree | drivers/virtual_fastrpc/dsp/virtio_fastrpc_core.c:406-424 | Empties the remote list and nothing else. |
| BufOps.FileBufs.FreeDesc | drivers/virtual_fastrpc/dsp/virtio_fastrpc_core.c:358-365 | Gives back exactly the buffers of the context, and equals its specification. |
| Session.StepExact | drivers/virtual_fastrpc/dsp/virtio_fastrpc_core.c:2233-2342 | Every message sent carries a non-negative channel id granted by an earlier OPEN, and each step keeps this if and only if it is not a first OPEN whose waiter finds no response: the reason why the guarantee of the message layer is needed. |
| Session.LostResponseLeaks | drivers/virtual_fastrpc/dsp/virtio_fastrpc_core.c:2266-2268 | After such an OPEN the next command would carry a negative id. |
| SessionNet.ReplyIsOwnAnswer | drivers/virtual_fastrpc/dsp/virtio_fastrpc_core.c:2263-2280 | On the message layer a waiter always finds a response, and it is the answer to its own OPEN. |
| SessionNet.WhoMayOpen | drivers/virtual_fastrpc/dsp/virtio_fastrpc_core.c:2297-2325 | A process creation goes on to its OPEN if and only if none of the four refusals applies to the request and the record read. |
| SessionNet.RefusedNeverOpens | drivers/virtual_fastrpc/dsp/virtio_fastrpc_core.c:2297-2325 | In every run no process creation on its way to an OPEN, sent or waiting, is one that had to be refused. |
| SessionNet.WhichDomain | drivers/virtual_fastrpc/dsp/virtio_fastrpc_core.c:2203-2226 | A GETINFO may set a domain if and only if it is a channel that the device node may use. |
| SessionNet.CommandsGoOut | drivers/virtual_fastrpc/dsp/virtio_fastrpc_core.c:479-527 | Commands and CLOSE go out exactly under their conditions, with the current id, and leave the rest of the session as it is. |
| SessionNet.FailedOpenCanRetry | drivers/virtual_fastrpc/dsp/virtio_fastrpc_core.c:2242-2262 | An OPEN that gets no message or cannot be sent leaves the session as it was and the thread free to try again, with the record as last updated. |
| SessionNet.CommandsCarryGrantedIds | drivers/virtual_fastrpc/dsp/virtio_fastrpc_core.c:1758-1764 | In every run of the session on the message layer, whatever the remote side answers, every MMAP, MUNMAP, MUNMAP_FD, MEM_MAP, MEM_UNMAP and CLOSE carries a non-negative id granted by an earlier OPEN. |
| SessionNet.GrantIsOwn | drivers/virtual_fastrpc/dsp/virtio_fastrpc_core.c:2270-2280 | The id a thread is granted is the one in the answer to its own OPEN, and only a thread that was granted one marks the file as initialised. |
| Session.CloseIsNeverNegative | drivers/virtual_fastrpc/dsp/virtio_fastrpc_core.c:487-490 | CLOSE never carries a negative id, lost responses or not. |
| SessionDomain.DomainStays | drivers/virtual_fastrpc/dsp/virtio_fastrpc_core.c:2203-2227 | A domain that is set stays the same through every run in which no store replaces a different one. |
| SessionDomain.SafeExact | drivers/virtual_fastrpc/dsp/virtio_fastrpc_core.c:2203-2227 | If all GETINFO calls under way would store the same domain (the one that is set, if it is), a step keeps this if and only if it is not a GETINFO that starts with another domain; and no store replaces a domain. |
| SessionDomain.UnsafeFails | drivers/virtual_fastrpc/dsp/virtio_fastrpc_core.c:2203-2227 | Otherwise one or two of the stores under way replace a domain that was set. |
| SessionDomain.DomainIsSetOnce | drivers/virtual_fastrpc/dsp/virtio_fastrpc_core.c:2203-2227 | In every interleaving on the message layer in which overlapping GETINFO calls agree, the domain is set at most once. |
| SessionDomain.DomainCanChange | drivers/virtual_fastrpc/dsp/virtio_fastrpc_core.c:2203-2226 | Four steps: two threads find no domain, one stores 1, the other replaces it with 2. |
| SessionDomain.OpensNameTheDomain | drivers/virtual_fastrpc/dsp/virtio_fastrpc_core.c:2258-2258 | In such interleavings every OPEN names the domain the session ends with, or -1 if it was written before; one that tested the record of a channel names that channel. |
| SessionDomain.LaterOpensNameIt | drivers/virtual_fastrpc/dsp/virtio_fastrpc_core.c:2258-2258 | Every OPEN written after the domain is set, in a run that does not replace it, names it. |
| SessionDomain.TestedNeedNotBeNamed | drivers/virtual_fastrpc/dsp/virtio_fastrpc_core.c:2294-2295 | A concrete run: the record tested for a process creation is not that of the channel its OPEN names, which would have refused it. |
| Session.DomainSetExactly | drivers/virtual_fastrpc/dsp/virtio_fastrpc_core.c:2203-2227 | Over calls that do not overlap, the domain is an existing channel if and only if some GetInfo succeeded, and -1 otherwise. |
| Session.OpenNamesAChannel | drivers/virtual_fastrpc/dsp/virtio_fastrpc_core.c:2258-2258 | Over calls that do not overlap, an OPEN names an existing channel if and only if some GetInfo succeeded before it. |
| Session.File.GetDomain | drivers/virtual_fastrpc/dsp/virtio_fastrpc_core.c:2188-2231 | Sets the domain exactly when it is unset and the channel is allowed, and reports failure exactly otherwise, in the fields of the channel record. |
| Session.File.OpenChannel | drivers/virtual_fastrpc/dsp/virtio_fastrpc_core.c:2233-2286 | Reports success also when no response is found; the id changes only on a good answer. |
| Session.File.InitProcess | drivers/virtual_fastrpc/dsp/virtio_fastrpc_core.c:2288-2342 | In the fields of the request and of the record at the domain: no OPEN, failure and no change for an untrusted caller or a non-secure node on a secure channel that want a signed process, for an unsigned process on a channel without support, and for any flag but create; in all other cases the OPEN is attempted, success is that of the OPEN, and the session stays right exactly when the first OPEN does not lose its response. |
| Session.File.SendCommand | drivers/virtual_fastrpc/dsp/virtio_fastrpc_core.c:1481-1487 | Refused before initialisation; otherwise exactly this command goes out with the current channel id, keeping the session right. |
| Session.File.CloseChannel | drivers/virtual_fastrpc/dsp/virtio_fastrpc_core.c:479-527 | CLOSE goes out exactly when the file was initialised, its id is not negative and the send succeeds. |
| Capability.QueryExact | drivers/virtual_fastrpc/dsp/virtio_fastrpc_core.c:2393-2448 | With a backend of fixed attributes, the cache stays right if and only if the query does not fetch, or the session channel and the queried channel agree on every attribute but the async one. |
| Capability.CacheInRuns | drivers/virtual_fastrpc/dsp/virtio_fastrpc_core.c:2393-2448 | Over all sequences of queries about the files' own channels, one after the other, the cache stays right and each channel is fetched at most once. |
| CapabilityNet.CopyExact | drivers/virtual_fastrpc/dsp/virtio_fastrpc_core.c:2376-2384 | Copying an answer into the table keeps the cache right if and only if the query failed, the channel was not yet cached, or the answer has async attribute 1 and is otherwise that of the queried channel. |
| CapabilityNet.StepExact | drivers/virtual_fastrpc/dsp/virtio_fastrpc_core.c:2419-2445 | For queries about own channels, with every write a step: a right cache becomes wrong exactly when an answer whose async attribute is not 1 is copied over a cached table, or a table that such a copy has reset is marked as cached. |
| CapabilityNet.RunKeeps | drivers/virtual_fastrpc/dsp/virtio_fastrpc_core.c:2344-2448 | Over all interleavings of queries about own channels, overlapping or not, every cached table and every value handed out is the backend's, except that the async attribute may be either the backend's or 1; that waiters find their answers is derived. |
| CapabilityNet.CacheInRuns | drivers/virtual_fastrpc/dsp/virtio_fastrpc_core.c:2344-2448 | Over all interleavings in which no two fetches of one channel overlap, the cache is right throughout, every caller, cached reads included, got what a fresh query would say, and each channel is marked as cached at most once. |
| CapabilityRaces.ReadExact | drivers/virtual_fastrpc/dsp/virtio_fastrpc_core.c:2376-2445 | Reading an answer with nothing in between keeps the cache right if and only if session channel and queried channel agree on every attribute but the async one. |
| CapabilityRaces.OverlapFails | drivers/virtual_fastrpc/dsp/virtio_fastrpc_core.c:2419-2445 | Whenever two answered fetches of one channel whose async attribute is not 1 are under way together, there is a way to go on in which a cached read hands out that value and the cache is wrong. |
| CapabilityRaces.OverlapIsReached | drivers/virtual_fastrpc/dsp/virtio_fastrpc_core.c:2384-2442 | A concrete run from a fresh driver: two queries overlap and a third caller reads async attribute 0 from the cache instead of 1. |
| Capability.ForeignDomainIsWrong | drivers/virtual_fastrpc/dsp/virtio_fastrpc_core.c:2369-2369 | A concrete query about another channel caches the wrong table under it. |
| Capability.Channels.GetInfo | drivers/virtual_fastrpc/dsp/virtio_fastrpc_core.c:2393-2473 | Range errors, driver attributes, the error code of each failing query, and otherwise the cached value; the table changes only by a fetch. |
| Capability.Channels.GetOwnInfo | drivers/virtual_fastrpc/dsp/virtio_fastrpc_core.c:2419-2445 | On a right cache, a query about the own channel answers what a fresh query would, with the async attribute 1. |
| Pools.InitVqs | drivers/virtual_fastrpc/dsp/virtio_fastrpc_base.c:783-854 | For every point of failure each block obtained is given back exactly once and each array allocated is freed once; success leaves `num_bufs` blocks in each pool and frees nothing; each failure has its error code. |
| Pools.FillPools | drivers/virtual_fastrpc/dsp/virtio_fastrpc_base.c:821-849 | Both fills and both unwind loops: the blocks freed are exactly those granted before the first refusal. |
| Pools.BlocksAreSingle | drivers/virtual_fastrpc/dsp/virtio_fastrpc_base.c:837-848 | In that multiset every block occurs exactly once. |

## Left out

- Kernel primitives (dma-buf, vmap, scatterlist tables, completions, locks, user copies): they appear as parameters or atomic steps, not as models of their own.
- CRC values, performance counters and trace events: observational only.
- Ioctl decoding, permission checks on device nodes, debugfs and character-device registration: plumbing around the modelled calls.
- The rest of `virt_fastrpc_probe` and module init and exit: the model starts after the receive buffers are posted.
- Malformed replies of the remote side: message ids out of range, second answers and wrong lengths are excluded by the assumptions above.
- `vfastrpc_internal_control` and the DSP signal calls: they add one more command with the same shape.
- Invoke: the invocation layer is modelled on values as a state machine over threads; its lists are not updated in place, because several threads share them and each locked section is a step.
- InvokeRestart.NumbersCountCalls: a call that is refused before it looks for an interrupted context, for a kernel handle or an unset domain, is not a step; it draws a number and changes nothing else.
- FileState.StepExact: freeing the message of a context and the context itself is one step, after its slots and descriptors; each of these touches nothing the others use.
- FileRelease.OpenFile.Release: starts after the CLOSE command and the wake-up of async waiters, with no call of the file running; the memory of the file object itself is not modelled.
- MessageFill.GetArgs: the mapping of buffers and handles is an answer given with the argument; its effect on the reference counts is in the mapping modules. Argument lengths are assumed to add up without wrapping.
- MessageRead.PutArgs: the release of ION mappings and the fdlist loop are in the mapping modules.
- MessageRead.RoundTrip: the memory of an internal buffer is found by the argument it belongs to; the address translation the remote side does with the mapping is not modelled.
- BufOps.FileBufs.Free: taking a buffer off a list and releasing its pages is one step, since no other thread can reach a buffer that is on no list.
- PageAlloc.AllocPages: the scatter-gather table and the kernel mapping built from the pages are not modelled.
- CapabilityNet.CacheInRuns: copying a table is one step; while fetches do not overlap, no query reads the table during the copy.
- SessionNet.CommandsCarryGrantedIds: a command tests the initialised mark and writes its channel id in one step; neither the mark nor a granted id is ever taken back. A request that is refused before its OPEN changes nothing and is not a step.
- Capability.Channels.GetInfo: the numbers of attributes and the id of the async attribute are parameters, because the header that defines them is not part of this model.
- The small drivers beside the FastRPC front end (silent boot, subsystem notifications, socinfo and others): each property follows from one branch.
