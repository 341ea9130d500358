# Anklang engine: proved models of its concurrent and algorithmic core

This project models the parts of the Anklang audio engine (`ase/`) that are hard to get right by reading, and
proves what their code and documentation promise. Check it with Dafny 4.11: `dafny verify dfyconfig.toml`.

How the models are built:

- **Threads.** Lock-free code and code that drops a lock is a transition system: each load, store and
  compare-and-swap (or each callback, where a mutex is held in between) is one labelled step of one thread. `Enabled`
  says when a step can happen, `Apply` what it does, a run is any sequence of enabled steps, and the theorems hold for
  every run of any number of threads. Atomics are sequentially consistent, as in the code.
- **Objects.** Code that updates its fields is a class with those fields. Each method carries a contract over a
  specification of its own: a set of covered bytes, a list of played events, a script of edits.
- **Numbers.** Ticks, addresses and stamps are integers, costs are reals. Where the width of an integer matters
  (32 bit extents, the round-robin counter) it is written out. Foreign calls (mmap, poll, zstd, JACK, callbacks of
  sources) are inputs of the steps and methods.

The modules:

| file | content |
|---|---|
| `Basics.dfy`, `LinkedLists.dfy` | shared notions; linked lists in a heap that keep apart |
| `MpmcStack.dfy` | push and pop of the lock-free stack, linearizable although anybody rewrites the links of unlisted nodes |
| `EngineJobs.dfy`, `EngineWakeup.dfy`, `EngineService.dfy` | the engine's job queues, the event loop turns that must not sleep on a queued job, and why every job runs |
| `LoftSizes.dfy`, `LoftAllocator.dfy`, `LoftRequests.dfy` | bucket sizes and boundary tags; the bucket allocator on its bump allocator under any interleaving, and what its callers get |
| `FreeLists.dfy`, `LiveBlocks.dfy`, `SequentialFit.dfy` | the best fit allocator with immediate coalescing |
| `EditScripts.dfy`, `EditDistance.dfy` | what an edit distance is; the two distance functions |
| `SortedLists.dfy`, `EventLists.dfy` | binary search, stable sort, the unique sorted event array and its cached view |
| `ClipNotes.dfy`, `ClipGenerator.dfy`, `MidiProducer.dfy` | clip playback and the scheduling of note-offs |
| `FrameRing.dfy`, `JackClients.dfy` | the single-producer ring and the two threads that use a pair of them |
| `LoopScheduler.dfy` | collect, prepare, check and dispatch of event sources, and the choice of a loop |
| `Callbacks.dfy` | the callback list that its own callbacks call, extend and shrink |

Findings, where the code does less or other than its documentation says; each is proved below:

- `EventList::remove` of an event that is absent but lies before the last one removes the last event
  (`RemoveExact`).
- `damerau_levenshtein_distance` exchanges insertion and deletion costs, ignores both when one string is left empty
  by trimming, and so meets its documentation exactly for unit costs (`Distance`, `UnitCostsNeeded`). Apart from that
  its matrix measures all edited swaps exactly when insertions and deletions cost at most 1 (`TightExact`).
- Two dispatches of one event source can pass over another one of the same priority that stays ready, exactly when
  that one does not need dispatching yet and was added later (`FairnessExact`); it happens at most once
  (`PassedOverOnce`).
- Priorities below `PRIORITY_ASCENT` are documented as internal to a loop, but `iterate_loops_Lm` compares them
  across loops always: it picks the documented loop exactly when a priority from there on is up or the first
  dispatchable loop in turn has the highest one anyway (`AscentExact`, `AscentIgnored`).
- A source is documented to be dispatched if `prepare()` or `check()` returned true, but `check()` overrides
  `prepare()`: a yes of `prepare()` counts exactly when `check()` repeats it (`EitherExact`, `PrepareOverridden`).
- `alloc_ext` with one of the last lengths below 2^32 reports success with an empty block as long as anything is
  free (`TruncationExact`).

## Model

| member | source | states |
|---|---|---|
| MpmcStack.PushPopLinearizable | ase/atomics.hh:125-158 | for every run from an empty stack, with interference on every unlisted node: the calls and returns, in order, are those of a machine whose push and pop are single steps on a LIFO sequence, which ends with exactly the enlisted nodes |
| MpmcStack.HeadNeverNull | ase/atomics.hh:128-146 | in every run the asserted `head.next != nullptr` holds, and a pop only ever reads the link of a node that was pushed before |
| MpmcStack.StepInv | ase/atomics.hh:131-155 | every step of every thread, and every outside write to an unlisted node, keeps the invariant that the head leads through exactly the enlisted nodes to the tail marker |
| MpmcStack.PopInv | ase/atomics.hh:147-156 | a pop whose compare-and-swap succeeds holds the current top and its current successor, although only pops change the counter and the node may have been popped, rewritten and pushed in between |
| MpmcStack.CallPushInv | ase/atomics.hh:128-128 | a caller that meets the assertion of push() (null link, node owned) never pushes an enlisted node |
| MpmcStack.StepSimulates | ase/atomics.hh:126-158 | each step is no step or one step of the atomic stack, with the same event and result |
| MpmcStack.PushAlone | ase/atomics.hh:125-140 | a push whose thread goes on alone takes effect and returns within five steps, with its node on top and the right was_empty |
| MpmcStack.PopAlone | ase/atomics.hh:141-158 | a pop whose thread goes on alone takes effect and returns within eight steps, with the top node or, from an empty stack, none |
| EngineJobs.JobsRunOnceInOrder | ase/atomics.hh:37-81 | in every interleaving the jobs of a queue run in the order of their pushes, none twice, none left out in between; only jobs that ran are deleted, each at most once |
| EngineJobs.NothingLost | ase/engine.cc:305-317 | once a queue is empty and the engine rests, all jobs ever pushed on it have run; once the trash is empty as well and the owner waits, the deleted jobs are exactly the jobs that ran |
| EngineJobs.NoStrandedTrash | ase/engine.cc:311-315 | in every interleaving, while the owner waits with jobs to delete, a wakeup is pending that it has not answered, or the engine stands between its push and that wakeup |
| EngineJobs.NullTails | ase/atomics.hh:38-41 | the null tail asserted by push_chain() holds whenever a producer or the engine gets there: pop_reversed() leaves it for the trash chain |
| EngineJobs.StepInv | ase/engine.cc:305-317 | every load, store and compare-and-swap of producers, engine and owner keeps the lists of the heap disjoint and the pushed jobs equal to those that ran followed by those still ahead |
| EngineJobs.DrainedQueue | ase/engine.cc:308-312 | with the engine at rest and the head null, every job pushed on the queue has run, in order |
| EngineWakeup.NoStrandedJob | ase/engine.cc:473-497 | in every interleaving, when the engine thread blocks in poll() it did poll its source, and if a job is queued (and the engine has not quit) the eventfd is set or a producer stands between its successful push and its wakeup |
| EngineWakeup.UnpolledNoBlock | ase/loop.cc:805-809 | whatever the other sources are and answer, the engine does not block after its driver source was left unpolled |
| EngineWakeup.QuitStrands | ase/engine.cc:350-354 | the reservation about quitting is needed: a run in which the engine, told to quit, answers a wakeup and goes back to sleep on a queued job |
| EngineWakeup.SleepMeansDone | ase/engine.cc:341-384 | when the engine blocks with no wakeup pending and no producer under way, all jobs ever pushed have run, in order |
| EngineWakeup.StepInv | ase/loop.cc:804-828 | every turn of the loop and every step of a producer keeps what the sleeping engine relies on: a queue it saw empty is empty, or a signal is there or coming |
| EngineWakeup.ProduceSignals | ase/engine.cc:476-478 | the push that makes an empty queue non-empty is the one whose producer goes on to wake the engine |
| EngineService.ProcessRuns | ase/engine.cc:305-317 | process_jobs() runs every job pushed on its queue before it started, whatever producers and the owner do meanwhile |
| EngineService.PassServes | ase/engine.cc:358-377 | in every interleaving a dispatch pass that finishes has run every const job pushed before its test for const jobs, and before it runs const jobs or renders it has run all async jobs pushed before it started on them |
| EngineService.EveryJobRuns | ase/engine.cc:338-381 | from any reachable start of an iteration, not quitting, the turns of the engine alone run all jobs pushed so far within a bounded number of steps, with a const job among them in any case and otherwise while the driver takes blocks |
| EngineService.RankFalls | ase/engine.cc:305-317 | each step of process_jobs() alone comes nearer to its end, also where a compare-and-swap fails first |
| EngineService.AudioFlows | ase/engine.cc:359-373 | while the driver takes blocks, a pass writes what was rendered, renders the next block and writes it |
| EngineService.RendersAnyway | ase/engine.cc:355-371 | a block that has to be rendered is rendered within one pass, whether the driver takes blocks or not |
| EngineService.IdleSleeps | ase/loop.cc:805-815 | an engine with nothing to do blocks in poll() after five turns |
| EngineService.SleepsAgain | ase/loop.cc:811-820 | a wakeup is answered once: with nothing to do the engine sleeps again, and the eventfd is clear |
| EngineService.PushEnds | ase/atomics.hh:37-50 | a producer that goes on alone ends its push within a few steps, with its job the last one pushed and on top |
| EngineService.TrashIsDeleted | ase/engine.cc:408-414 | a dispatch of the owner alone empties the trash, and deletes every job that ran and is not in the hands of the engine |
| LoftSizes.LeastSize | ase/loft.cc:267-285 | for requests up to 2^30 bytes the bucket size is at least the request and the least of all sizes in the image of the index function that is |
| LoftSizes.LeastBlock | ase/loft.cc:267-285 | a request gets the least block size that holds it, stated without the index function |
| LoftSizes.FixedPoint | ase/loft.cc:336-346 | rounding a bucket size again changes neither size nor index, so the check in do_free() accepts every block size do_alloc() returns |
| LoftSizes.RoundedUp | ase/loft.cc:266-285 | bucket sizes are multiples of 64 between 64 and 2^30; up to 8192 bytes the request is exceeded by less than 64 |
| LoftSizes.Tags.BtAlloc | ase/loft.cc:459-484 | the returned memory is 64 byte aligned and lies inside the block, the tag right before it lies inside the block too, the two do not meet, and no other tag is touched |
| LoftSizes.Tags.BtFree | ase/loft.cc:487-506 | finds exactly the block and size stored by the allocation, all assertions hold, and do_free() accepts the size |
| LoftAllocator.BlocksDisjoint | ase/loft.cc:225-258 | in every interleaving of do_alloc, do_free and bump_alloc, with spans growing in place or anew, all blocks ever carved are pairwise disjoint, 64 byte aligned, and inside their span behind its header |
| LoftAllocator.OnePlace | ase/loft.cc:316-346 | in every interleaving each block is held by one caller, who alone can free it, in transit in exactly one thread, or in exactly one bucket, the one of its own size, and once |
| LoftAllocator.StepInv | ase/loft.cc:225-346 | every step of every thread keeps spans, blocks and places in order |
| LoftAllocator.CarveMemory | ase/loft.cc:231-238 | a successful compare-and-swap on the offset of a span yields a block that meets no block carved before |
| LoftAllocator.GrowSpans | ase/loft.cc:96-137 | growing the last span in place or appending one, given fresh address ranges, keeps all blocks inside their spans |
| LoftAllocator.HandedOut | ase/loft.cc:321-343 | the bucket that serves a request has blocks of at least its size, and freeing such a block goes back to the same bucket |
| LoftRequests.RequestsFit | ase/loft.cc:316-330 | in every interleaving a block that a caller holds has room for the bytes it asked for, and is of the least block size that has: a multiple of 64 up to 8192, else a power of two |
| LoftRequests.RequestsApart | ase/loft.cc:316-346 | the bytes two callers asked for and hold never overlap |
| LoftRequests.RequestServed | ase/loft.cc:225-258 | every request can be answered: a thread that goes on alone, given memory when it grows the spans, ends up holding a block |
| LoftRequests.FreedIsReused | ase/loft.cc:316-346 | a block freed by a thread serves its next request of that block size, and everything is as before |
| LoftAllocator.NeverStuck | ase/loft.cc:229-238 | a thread inside the allocator always has a next step within existing spans and buckets |
| SequentialFit.Allocator.Alloc | ase/memory.cc:249-275 | succeeds exactly when the free bytes hold a run of the aligned length (truncated to 32 bits); the block is the start of the best fit, aligned, all zero, disjoint from every other block, and exactly its bytes leave the free list |
| SequentialFit.Allocator.Release | ase/memory.cc:185-229 | an extent that fails the first two checks changes nothing; aligned bytes that were handed out, a block or parts of blocks, join the free list in one piece with their free neighbours, zeroed, with no other byte changed, and the rest of the blocks stays with the callers |
| SequentialFit.Allocator.constructor | ase/memory.cc:146-159 | a fresh area is the single free extent [0, size), all zero, with nothing handed out |
| SequentialFit.Allocator.FindBestFit | ase/memory.cc:230-248 | the last exact fit in the list, else the smallest sufficient extent with the lowest address, or none exactly when all are too short |
| SequentialFit.Allocator.FindTouching | ase/memory.cc:191-209 | finds the free extents that end where the released one starts and start where it ends, if there are any, with its early exits; no overlap is reported |
| SequentialFit.Allocator.FreeBytes | ase/memory.cc:177-184 | the sum of the free list, which with the live blocks always adds up to the size of the area |
| SequentialFit.Allocator.ReleaseAll | ase/memory.cc:160-166 | releasing all live bytes in any order and in any pieces restores the single extent [0, size) |
| SequentialFit.TruncationExact | ase/memory.cc:255-259 | the success test is right for the true aligned length exactly when the length is at most 2^32 minus the alignment, or nothing is free |
| LiveBlocks.CutOk | ase/memory.cc:185-228 | what callers keep after releasing a part is as disjoint and aligned as before, and lost exactly that part |
| LiveBlocks.Conserved | ase/memory.cc:160-184 | free bytes and live bytes add up to the size of the area, whatever the lists look like |
| FreeLists.RunInExtent | ase/memory.cc:210-228 | with a free list that is disjoint and never adjacent, consecutive free bytes lie in one extent |
| FreeLists.RunIffExtent | ase/memory.cc:230-248 | a run of n free bytes exists exactly when some extent has n bytes |
| FreeLists.AllFree | ase/memory.cc:160-166 | a free list that covers everything is the single extent [0, size) |
| FreeLists.ReleasedOk | ase/memory.cc:210-228 | merging keeps the free list disjoint, aligned, non-empty and free of adjacent extents, and adds exactly the released bytes |
| FreeLists.TakenOk | ase/memory.cc:260-273 | cutting a block off an extent, or unlisting it, keeps the free list in order and removes exactly the bytes of the block |
| EditDistance.Restricted | ase/levenshtein.cc:15-62 | for all strings and non-negative costs: the minimum cost over all scripts of insertions, deletions, substitutions and unedited adjacent swaps, through argument exchange, trimming and rotating rows |
| EditDistance.FillRows | ase/levenshtein.cc:38-61 | three rotating rows compute the same minimum on two strings |
| EditDistance.FillRow | ase/levenshtein.cc:46-54 | one pass of the inner loop leaves in its row the distances of the source prefix to every prefix of the target |
| EditDistance.NearStep | ase/levenshtein.cc:48-53 | a cell computed from its cheapest neighbours, and for crossing bytes from two rows and columns back, is cheapest |
| EditDistance.Trim | ase/levenshtein.cc:26-32 | removes exactly the common prefix, then the common suffix |
| EditDistance.CommonEnds | ase/levenshtein.cc:27-32 | cutting common ends off both strings does not change the distance |
| EditDistance.Unrestricted | ase/levenshtein.cc:84-118 | for all costs the minimum over scripts whose swaps may edit in between but enclose neither swapped byte again (tight swaps), and with insertions and deletions of at most unit cost the minimum over all scripts; insertion and deletion costs exchanged |
| EditDistance.TightExact | ase/levenshtein.cc:108-111 | looking at last occurrences only gives the distance with all swaps, for all strings, exactly when neither insertions nor deletions cost more than 1: dear deletions need a long enough run of equal bytes to fail |
| EditDistance.RightExists | ase/levenshtein.cc:84-118 | for all costs and strings the distance with tight swaps exists and follows the recurrence of the code |
| EditDistance.FillFarRow | ase/levenshtein.cc:100-115 | one row, with CP and CS the last occurrences of the target and source bytes, is right in every cell |
| EditDistance.TableGrows | ase/levenshtein.cc:115-115 | after a row, CP again holds the last position of every byte value |
| EditDistance.FarStep | ase/levenshtein.cc:103-111 | looking only at the last occurrences finds the best tight swap, and the best edited swap where these are enough |
| EditDistance.Distance | ase/levenshtein.cc:124-146 | with unit costs the distance with edited swaps, for all strings; for other costs the length of what is left when one string is trimmed away, else, with insertion and deletion costs exchanged, the distance with tight swaps of what trimming left, and the distance with all swaps when insertions and deletions cost at most 1 |
| EditDistance.UnitCostsNeeded | ase/levenshtein.cc:136-140 | answering with the length of the rest is right for all strings exactly when insertions and deletions cost 1 |
| EditScripts.Symmetric | ase/levenshtein.cc:141-145 | the distance is symmetric when insertions and deletions cost the same |
| EditScripts.Undone | ase/levenshtein.cc:23-25 | exchanging the strings together with the two costs leaves the distance as it is |
| EditScripts.CommonFirst | ase/levenshtein.cc:27-29 | a common first byte does not change the distance, also with edited swaps, when insertion and deletion are not dearer than editing inside a swap |
| EditScripts.CommonLast | ase/levenshtein.cc:30-32 | the same for a common last byte |
| SortedLists.BinaryInsertionPos | ase/utils.hh:256-298 | a matching element, or else the position with everything before less and everything after greater |
| SortedLists.LookupAfter | ase/eventlist.hh:215-220 | the first element that is not less than the key, or the end |
| SortedLists.StableSortSorts | ase/eventlist.hh:198-206 | the sorted copy is ordered and keeps the order of equal elements |
| SortedLists.StablyUnique | ase/eventlist.hh:198-206 | there is only one such list |
| EventLists.EventList.Insert | ase/eventlist.hh:78-104 | the array stays strictly sorted and becomes the one with the event put at its place; the replaced event is reported, on the append path as on the others |
| EventLists.EventList.Replace | ase/eventlist.hh:106-121 | replaces the event with this key if there is one, and otherwise changes nothing, the cached view included |
| EventLists.EventList.Remove | ase/eventlist.hh:123-149 | removes a present event, nothing beyond the last one, and the last event for an absent one before it |
| EventLists.RemoveExact | ase/eventlist.hh:136-148 | remove does what it promises exactly when the event is present or lies beyond the last one |
| EventLists.EventList.OrderedEvents | ase/eventlist.hh:183-196 | cached or not, the list is the stable sort of the current events |
| EventLists.EventList.ApplyUndo | ase/clip.cc:202-217 | restores exactly the events of the image and returns an image of those replaced |
| EventLists.PutFind | ase/eventlist.hh:88-103 | putting an event updates the map the array stands for at its key and nowhere else |
| EventLists.PutSorted | ase/eventlist.hh:88-103 | putting an event keeps the array strictly sorted |
| EventLists.DropFind | ase/eventlist.hh:128-147 | dropping an event removes its key from the map and nothing else |
| EventLists.MapDetermines | ase/eventlist.hh:78-104 | arrays that stand for the same map are equal |
| ClipNotes.UniqueIdsSortStrictly | ase/clip.hh:109-127 | notes with unique ids sort by tick, key, channel, selection and id without ties |
| ClipGenerator.Generator.Generate | ase/clip.cc:358-410 | for each external tick in order, note-on and note-off of every note at the looped position and of no other, each with its own channel, key, velocity, tuning and id, nothing while delayed or muted; advances to the target or the last tick, and ends at the looped position |
| ClipGenerator.Generator.JumpTo | ase/clip.cc:319-355 | the position found with a modulo is the one reached by stepping, exactly when the start offset lies before the loop end or is 0, or no tick was played; setup() always leaves it 0; a negative target is a plain delay |
| ClipGenerator.Generator.PlayChunk | ase/clip.cc:390-407 | one chunk sends exactly the notes from its first to before its last tick, in list order |
| ClipGenerator.Generator.SendNote | ase/clip.cc:395-404 | two events with the note's own channel, key, velocity, tuning and id: a note-on, or a note-off without velocity, and a note-off after the duration |
| ClipGenerator.GenerateSplits | ase/clip.cc:358-391 | splitting one call into two changes neither events nor final position |
| ClipGenerator.SeekLikeStepping | ase/clip.cc:319-355 | jumpto(t) and jumpto(0) with generate(t) leave two generators in the same state |
| ClipGenerator.PosLoops | ase/clip.cc:343-354 | stepping through a loop of any length any number of times is the modulo of the seek |
| ClipGenerator.ChunkPlayed | ase/clip.cc:378-407 | the notes between two ticks are what stepping tick by tick plays |
| ClipGenerator.PlayedSounds | ase/clip.cc:390-407 | what is played are the notes at the looped positions, each with its own voice at its tick, all of them and no other |
| MidiProducer.Producer.Render | ase/midilib.cc:119-217 | hands over exactly the events of the reference block, clip after clip, and ends in its state; output, handed over and waiting events always balance; a flush outputs all that waits, and otherwise only events due before the end of the block are output; what waits afterwards is a note-off due at its end or later |
| MidiProducer.Producer.PlayBlock | ase/midilib.cc:164-214 | the succession loop ends, and plays exactly the reference block: each clip to its end or the end of the block, the next one from its bar on |
| MidiProducer.Producer.OutputWaiting | ase/midilib.cc:127-152 | what it outputs leaves the stack and the rest stays: everything when a flush is called for, else exactly what is due |
| MidiProducer.Producer.Flush | ase/midilib.cc:128-142 | outputs every waiting event: all of them are note-offs, so none is dropped |
| MidiProducer.Producer.PopDue | ase/midilib.cc:144-152 | outputs exactly what is due before the end of the block |
| MidiProducer.Producer.Receive | ase/midilib.cc:169-185 | each event of the generator is output now or stacked, at its engine tick, exactly once |
| MidiProducer.Producer.PlayTurn | ase/midilib.cc:165-213 | one turn hands over what the current generator plays at engine ticks, and leaves the clips as the reference turn does |
| MidiProducer.TurnNearer | ase/midilib.cc:165-213 | each turn comes nearer to the end of the block or leaves a finished clip, so the loop ends for all clips and succession orders |
| MidiProducer.TurnSounds | ase/midilib.cc:164-187 | a turn sounds exactly the notes the current clip has between its play position and the end of the block, or its own end, at engine ticks from its start on |
| MidiProducer.Producer.Succeed | ase/midilib.cc:190-207 | after a clip has ended the next one in the order starts from its beginning at the first bar that is not before the end of the last, a whole number of bars from the current one; if there is none, or it has nothing to play, playback ends |
| MidiProducer.NextBarAfter | ase/midilib.cc:197-199 | the bar found is not before the point reached, and less than one bar after it |
| MidiProducer.NextBarStarts | ase/midilib.cc:197-199 | the bar found is a whole number of bars from the current one, and the first that is not before the point reached |
| MidiProducer.Producer.Stop | ase/midilib.cc:107-117 | keeps all waiting note-offs and has them flushed with the next block; a restart leaves no clip current, otherwise the play position stays |
| MidiProducer.Producer.UpdateFeed | ase/midilib.cc:64-83 | keeps waiting events, and the play position of the current clip as far as the new clip is long; when the new feed lacks the clip, playback ends and the waiting events are flushed |
| MidiProducer.Producer.Start | ase/midilib.cc:93-106 | starts the first clip from its beginning at the current bar unless one is current, and loses nothing that waits |
| FrameRing.ReadsAreAPrefix | ase/driver-jack.cc:136-206 | in every interleaving of element-wise copies, the frames read are a prefix of the frames written on all channels, and no unread slot is overwritten |
| FrameRing.StepInv | ase/driver-jack.cc:136-206 | every copied element and every published position keeps the slots of both threads apart |
| FrameRing.Counts | ase/driver-jack.cc:116-172 | the readable and writable counts computed from two wrapped positions are exact |
| FrameRing.SpaceLasts | ase/driver-jack.cc:161-172 | space or frames a thread has seen can only grow until it uses them itself |
| FrameRing.PublishReadInv | ase/driver-jack.cc:140-153 | a completed read returns exactly the next frames written |
| FrameRing.WriteTransfers | ase/driver-jack.cc:182-206 | a write that goes on alone publishes as many of its frames, in order, as there is space for by the books |
| FrameRing.ReadTransfers | ase/driver-jack.cc:136-154 | a read that goes on alone returns the next frames written, as many as asked for if there are |
| FrameRing.StartCounts | ase/driver-jack.cc:116-206 | what a call transfers is settled when it starts: the frames asked for, or else all that are unread or fit |
| FrameRing.CopiesInBounds | ase/driver-jack.cc:143-150 | no copy leaves the channel buffers |
| JackClients.FullBlocks | ase/driver-jack.cc:474-482 | in every interleaving of the realtime callback with the engine thread none of the full-block assertions after a successful check fails, nor the one on balanced reads and writes |
| JackClients.GoesExactly | ase/driver-jack.cc:779-783 | by the frames written and read, the callback goes on exactly when there is space for its frames and there are frames for it, the engine exactly when it saw space for a block and there is a block to read |
| JackClients.TransfersExactly | ase/driver-jack.cc:845-895 | a completed transfer moves all frames of the callback, or a whole block of the engine, and no other step moves any |
| JackClients.EngineCycle | ase/driver-jack.cc:779-896 | with a block to read and space for one, the engine alone reads a block and writes its own in full |
| JackClients.CallbackCycle | ase/driver-jack.cc:474-483 | with space and frames for it, the callback alone writes its frames and reads as many |
| JackClients.StepInv | ase/driver-jack.cc:779-896 | every step of either thread on either ring keeps what the other thread has checked for |
| JackClients.StepSound | ase/driver-jack.cc:845-895 | no step fails an assertion |
| LoopScheduler.FairnessExact | ase/loop.cc:590-635 | on the runs of the code, with or without other loops beside: a source of the same priority that stays ready cannot miss its turn before the dispatched one is dispatched again exactly when it needs dispatching by then or comes earlier in the list |
| LoopScheduler.PassedOverOnce | ase/loop.cc:607-634 | whatever happens, a source that stays ready is passed over at most once: another one of its priority is not dispatched twice in the meantime |
| LoopScheduler.NotPassedOver | ase/loop.cc:607-634 | in any run of iterations a source that needs dispatching already or comes earlier is dispatched first |
| LoopScheduler.LaterPassedOver | ase/loop.cc:720-730 | any other source can be passed over: a run of the code, with explicit answers of all sources, that does it although the source says it is ready whenever it is asked |
| LoopScheduler.MadeIsIteration | ase/loop.cc:590-747 | every round that the code makes for some answers of its sources is an iteration as the other results assume it |
| LoopScheduler.FollowedIsMade | ase/loop.cc:749-881 | what one pass of the main loop does to any of its loops is such a round of the code |
| LoopScheduler.HighestFirst | ase/loop.cc:714-731 | no source of higher priority needs dispatching when one is dispatched |
| LoopScheduler.EventLoop.CollectSources | ase/loop.cc:590-635 | the dispatch priority is the highest at which a source needs dispatching, and the poll list is exactly the sources above it and those at it that need dispatching, in order |
| LoopScheduler.EventLoop.PrepareSources | ase/loop.cc:637-675 | each polled source that is still there is asked in order, with all changes made meanwhile; the outcome is exactly the one of asking them one by one, and the dispatch priority stays at or above every source that needs dispatching |
| LoopScheduler.EventLoop.PrepareSource | ase/loop.cc:645-672 | a source that is there is set to need dispatching exactly if it says so, raises the dispatch priority then, and nothing but what its callback added and removed changes besides |
| LoopScheduler.EventLoop.CheckSources | ase/loop.cc:677-712 | every polled source that is still there is asked again, also those that need dispatching already, and then needs dispatching or has refused; the outcome is exactly the one of asking them one by one, the answer overriding prepare |
| LoopScheduler.EventLoop.CheckSource | ase/loop.cc:683-709 | a polled source that is there is set to need dispatching or to wait as it says, and nothing but what its callback added and removed changes besides |
| LoopScheduler.EitherExact | ase/loop.cc:677-712 | the documented rule that a yes of prepare() or of check() makes a source need dispatching (ase/loop.cc:1324) holds exactly when a yes of prepare() is followed by one of check() |
| LoopScheduler.PrepareOverridden | ase/loop.cc:693-709 | a source that is ready in prepare and not in check is not dispatched: a concrete loop |
| LoopScheduler.EventLoop.FindDispatchSource | ase/loop.cc:718-730 | the first polled source that needs dispatching at the dispatch priority, in list order, if there is one |
| LoopScheduler.EventLoop.DispatchSource | ase/loop.cc:714-747 | dispatches exactly that source and no other; it stays, waiting, exactly when its callback asks to be kept and did not remove it; what the callback removed is detached, what it added follows, and nothing else changes; nothing left that needs dispatching has a higher priority |
| LoopScheduler.DispatchedChanges | ase/loop.cc:732-746 | a dispatched source stays exactly when its callback wants to be kept and did not remove it |
| LoopScheduler.MainLoop.IterateLoops | ase/loop.cc:749-881 | every loop completes exactly the round its answers determine, a loop is picked exactly when one has something to dispatch, at most one source of all is dispatched, no loop has one of higher priority; poll() does not block when a source was left unpolled or needs dispatching, and sleeps for the timeout in whole milliseconds when all is quiet |
| LoopScheduler.PickLoop | ase/loop.cc:849-860 | the `while (true)` ends, across the wrap-around of its counter, at the first eligible loop in round-robin order |
| LoopScheduler.AscentExact | ase/loop.cc:845-860 | the loop picked is the documented one, the first dispatchable in turn unless a priority from PRIORITY_ASCENT on is up (ase/loop.cc:1311), exactly when such a priority is up or the first dispatchable loop in turn has the highest priority anyway |
| LoopScheduler.AscentIgnored | ase/loop.cc:845-860 | two loops with priorities 500 and 400 and the counter at the second: it is its turn, but the first is picked |
| LoopScheduler.FirstComes | ase/loop.cc:850-860 | where some loop may be picked there is a first one in round-robin order, across the wrap-around of the counter |
| LoopScheduler.NextStep | ase/loop.cc:852-852 | each step of the counter comes nearer to an eligible loop, also where it wraps around |
| Callbacks.CallbackList.Invoke | ase/callback.hh:35-48 | however callbacks call, extend and shrink the list, the invoked ids and the list afterwards are those of a reference without cursors, which always goes on with the oldest callback newer than the last: ids in the order they were added, each at most once, never after deletion, passed over only if deleted before their turn; the cursor list is restored |
| Callbacks.CallbackList.Run | ase/callback.hh:50-55 | what a callback does changes the list as in the reference, and keeps every live cursor between what it has invoked and what is still to come |
| Callbacks.CallbackList.DelId | ase/callback.hh:73-85 | deletes the one entry with the id, if present, keeps the others in order, and moves the cursors behind it |
| Callbacks.CursorAtNewer | ase/callback.hh:38-42 | the entry at a cursor is the oldest one newer than the id invoked last, and a cursor at the end has none to come |
| Callbacks.CallbackList.AddId | ase/callback.hh:60-72 | appends an entry with a new, larger id |
| Callbacks.AllPassed | ase/callback.hh:40-42 | a call with nothing left to invoke has invoked every callback still in the list |
| Callbacks.TurnTaken | ase/callback.hh:41-42 | the entry at the cursor is the next one in the order of ids that was not deleted |

## Left out

- EngineWakeup.NoStrandedJob: says nothing once the engine was told to quit, because the code then stops looking at its queues (`QuitStrands`).
- SequentialFit.Allocator.Release: asks that an extent that passes the two range checks is aligned, as `Arena::release` checks, and consists of bytes that were handed out. The overlap check is proved to stay silent then, not to catch every misuse.
- SequentialFit.Allocator.constructor: asks for an aligned size and a power of two alignment, which `Arena::Arena` and `create_arena` provide.
- ClipGenerator.Generator.Generate: asks that notes are visible to the lookup by tick (`MidiNotesVisible`: positive id, channel and key not negative), as inserted notes are.
- ClipGenerator.Generator.JumpTo: asks for loop_start before loop_end where the modulo is reached; the code would divide by zero or loop backwards otherwise.
- Callbacks.CallbackList.Invoke: ids are counted for one list, where the code shares the counter among lists of a type; covers callbacks that do finitely many things; the moving of the function objects when the vector grows during a call is not part of this model.
- MpmcStack.PushPopLinearizable: the ABA counter does not wrap around; the destructor is not part of this model.
- LoopScheduler.EventLoop.CheckSources: callbacks change the sources of their own loop only, other threads change none while poll() sleeps, and no loop is iterated from within a dispatch, so the recursion flags are not part of this model.
- MidiProducer.Producer.Render: frame offsets within a block, their clamping and the final sort by frame, which need not keep the order of events at one frame, are not part of this model, nor is `reset`, which drops what waits.
- LoftAllocator.BlocksDisjoint: requests above 2^30 bytes, where the bucket size overflows an int; totals, watermarks, canaries and prefaulting; that the operating system finds memory in the end.
- EventLists.EventList.ApplyUndo: zstd is taken as a lossless round trip.
- The engine's path for jobs added before its thread runs, the semaphores of blocking jobs, user notes, and the writing of audio in `pcm_check_write`.
- `AtomicStack`, which only combines the stack with the allocator; `AtomicBits`.
- `fast_mem_alloc` and `fast_mem_free` with their table from pointers to blocks, several arenas, and `CStringTable`: maps that would add easy members. `fast_mem_alloc` narrows its size to 32 bits before the allocator sees it.
- `EventList::lookup` and `OrderedEventList::lookup`, thin wrappers of the binary search; `collapse_notes` and `change_batch`.
- Rounding of edit costs as floats; strings longer than an int can index.
- The GLib main context, signal and timer sources, file descriptors of sources, and timeouts other than their effect on blocking.
- Resizing and clearing a frame ring, which the threads must not do while they use it; latency and xrun accounting.
