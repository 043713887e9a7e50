# Per-process system call vectors: a model and its proofs

A *vector* is a list of overridden system calls. Kernel modules register vectors in one list, and every
task points to at most one of them through `task_struct->syscall_vector_info`. A registered vector has a
reference count, and each reference also pins the module that owns the vector. Tasks set, remove and
create vectors through an ioctl and hand them on when they clone.

The project models this ownership protocol and proves what its three counters (tasks that hold a vector,
references on it, pins of its module) have to do with each other in every interleaving; it models the
linked lists on the heap and proves that they do what the protocol takes for granted; and it models the
text form of the registry, the forking of a task, and an earlier version of the registry.

Check it with `dafny verify dfyconfig.toml`.

## How it is built

* **Values.** `Registry.dfy` says what the registry holds and what every operation of `vec_load_unload.c`
  does to it, as functions; `Text.dfy` is its printed form; `Bitmap.dfy` is the
  builder's list for a bitmap, and `Flags.dfy` says in numbers which calls that list overrides.
* **The protocol.** `Protocol.dfy` is a state machine. One step is what a task does between two points
  where another can run; taking and releasing `list_lock` and `mutexlock` are steps. Tasks run any lists
  of SET, REMOVE, CREATE, clone, exit, load and unload, and children run lists of their own.
  `Ledger.dfy` has the books and the changes that keep them balanced, `Invariant.dfy` what each position
  stands for, `Steps.dfy` one lemma for each kind of step, `Safety.dfy` the results over all runs,
  `Guards.dfy` the checks before a call that those results need, `Leaks.dfy` where the references come from
  that nobody gives back, `Progress.dfy` deadlock freedom and termination, `Uniqueness.dfy` that a bitmap has
  one vector, `Counting.dfy` how many vectors there can be, `Solo.dfy` and `SoloClone.dfy` what an
  uninterrupted call adds up to, `Unload.dfy` what an unload does and leaves, and `Races.dfy` the runs that go
  wrong.
* **The heap.** `VectorList.dfy` is the circular doubly linked registry, proved against `Registry.dfy`.
  `OverrideList.dfy`, `DynamicModule.dfy` and `StaticModule.dfy` are the lists of overrides: building,
  remembering and freeing them, and `DynamicRuns.dfy` which list belongs to which vector in any run, and what
  the cleanup finds after it. `Ioctl.dfy` is `custom_ioctl` with all its requests on top of both, proved
  against `Solo.dfy`.
* **The text.** `Display.dfy` is the client's parser and the round trip.
* **Forks.** `Fork.dfy` is `copy_process` with its failure ladder, `Sharing.dfy` what its counters count,
  `Clone.dfy` is `sys_clone2` and trees of clones.
* **The earlier registry.** `VecCopy.dfy` is `vec_copy.c`.

## What the code does not do

Some things one expects of the code are false. The code is kept as it is; for each there is the exact
condition under which it holds, and an input or a run for which it fails.

* Replacing a held vector does not drop the old reference: `if_assigned_reduce` looks for a vector named
  like the whole three-line record, and the old vector never is. So a refcount is what tasks hold *plus*
  what was leaked (`Safety.ExactLedger`), and that is one for each replacement, each fork that fails after
  taking its reference, and each vector whose child is gone (`Leaks.LedgerOfRun`). Condition:
  `Solo.ReplaceDropsNothing`; run: `Races.ReplaceLeaks`.
* REMOVE drops a reference on whatever vector it is given the name of. Doing so for another task's vector
  ends with that task pointing to freed memory. Condition: `Safety.RemoveExact`; run: `Races.StrayRemove`.
* A sharing fork reads the parent's pointer twice. If the pointer changes in between, the child's is not
  counted. Condition: `Safety.CopyExact`; run: `Races.TornFork`.
* `cleanup_override` frees a list even when `unregister_syscall` says that it is in use. Condition:
  `Safety.FreeExact`, and `DynamicModule.SweepExact` for the loop; run: `Races.ForcedFree`.
* The bitmap builder looks at eight flags, so a bitmap with none of them gives a NULL list, and a vector is
  registered for it again and again. Condition: `Races.OncePerBitmapExact`; run: `Races.CreateTwice`.
* A failed allocation of a node is never noticed by `add_vector_from_bitmap`, because the result it tests is
  unsigned. Condition: `OverrideList.KeptExact`; input: `OverrideList.KeptFails`.
* A static module whose registration fails leaves its list behind. Condition:
  `StaticModule.StaticModule.LoadAndUnload`; input: `StaticModule.LeftBehind`.

Three steps of the protocol are therefore *disciplined* where a result needs it: a REMOVE names the vector
its caller holds; a sharing fork finds the same pointer twice; cleanup frees a list only after unregistering
it. The last two are not assumed of the outcome of the step: `Guards.CarefulIsLegal` derives them from what
can be checked beforehand, namely that `try_module_get` succeeds whenever a look-up by name or bitmap finds a
list (the code ignores its result), and that no `sys_clone2` is about to store a vector into a task that
begins a sharing fork. `Progress.dfy`, `Uniqueness.dfy`, `Counting.dfy` and `Leaks.RunLeaks` need none of this:
they are about every interleaving. The repository's own README describes some of this differently (ids that
are counted up, for example); the model follows the code.

## Model

| member | source | states |
|---|---|---|
| Registry.Find | vec_load_unload.c:431-442 | a search ends at the first match and passes only entries that do not match, or there is no match at all |
| Registry.RegisterThenUnregister | vec_load_unload.c:174-318 | registering an address and then unregistering it restores the whole registry, so older vectors of the same name are found again |
| Registry.UnregisterCases | vec_load_unload.c:281-318 | unregistering removes exactly the first entry with the address, and only if its refcount is not positive; the results 0, -2222 and -EFAULT tell the three cases apart |
| Registry.AcquireExact | vec_load_unload.c:423-449 | a search that succeeds adds one to the refcount of the first match and one to the pins of its module, if that can be pinned, changes nothing else, and answers the vector's address; one that fails answers 0 and changes nothing |
| Registry.ReleaseExact | vec_load_unload.c:494-522 | a release that finds a vector takes one from each and answers the refcount it leaves, one less than before; one that finds none answers -1 and changes nothing |
| Registry.RegisterExact | vec_load_unload.c:174-275 | a new vector has its bitmap for an id and is what every search for its name, bitmap or address finds; older vectors and the pins stay as they are |
| Registry.AcquireThenRelease | vec_load_unload.c:423-595 | dropping by address a reference taken by any key restores the registry and all pins if and only if the acquired entry is the first with its address |
| Registry.AcquireReleaseInverse | vec_load_unload.c:348-595 | with distinct addresses acquiring and releasing are inverse, and a failed acquisition changes nothing |
| Safety.AcquireIsUndone | vec_load_unload.c:348-595 | in every reachable state dropping by address a reference taken by any key restores the registry and all pins, unless the list is NULL |
| Text.DecimalRoundTrip | vec_load_unload.c:71-80 | reading a printed number gives the number back |
| Text.DynamicNameInjective | dynamic_vector.c:130-139 | different bitmaps get different names |
| Text.NameAndBitmapAgree | vec_load_unload.c:423-488 | while every entry has the builder's name, searching by that name and by bitmap ends at the same entry, duplicates or not |
| Text.SameEffectByNameOrBitmap | vec_load_unload.c:423-522 | and acquiring or releasing by one or the other does the same |
| Text.RecordIsNoName | ioctl_module.c:94-101 | over names without line breaks the text that if_assigned_reduce looks up is nobody's name |
| Text.ListingBound | vec_load_unload.c:50-92 | at most 21 characters an entry for entries named by an accepted bitmap, and every number fits its array of eight |
| Text.TwelveFit | ioctl_module.c:301-310 | twelve such entries always fit the 256 bytes of the ioctl |
| Text.ThirteenMayNotFit | ioctl_module.c:301-310 | thirteen may not |
| Bitmap.BuiltDecodes | dynamic_vector.c:141-191 | the list built for a bitmap stands for exactly the flags in bitmap & 831, and is NULL exactly when there are none |
| Bitmap.BuiltDistinct | ioctl_module.c:128-160 | no system call is overridden twice if and only if the bitmap passes the two flag checks of validate_bitmap, and that accepts exactly the bitmaps up to 1023 of which this holds |
| Flags.BuiltContains | dynamic_vector.c:141-191 | the list of a bitmap has, for each flag that is set but 64 and 128, the override of the call the flag is named after, and nothing else |
| Flags.BuiltInTurn | dynamic_vector.c:141-191 | in the order in which the builder tests the flags, each at most once |
| Flags.BuiltOverrides | dynamic_vector.c:141-191 | read is overridden if and only if 1 is set, write if 2 or 256 is, open if 4 or 512, close if 8, unlink if 16, link if 32, mkdir and rmdir never |
| Flags.Vector1Overrides | vector1_module.c:123-146 | the vector of vector1_module has bitmap 55 and exactly what the builder would put into that list, in an order of its own |
| Flags.Vector2Overrides | vector2_module.c:125-147 | that of vector2_module has 968, and mkdir and rmdir besides |
| Steps.ClaimedIsRegistered | vec_load_unload.c:281-318 | what a task points to or carries is allocated and registered under exactly one entry, with a refcount that covers the task's claims |
| Steps.EnterKeepsInv | ioctl_module.c:187-207 | taking mutexlock keeps the invariant |
| Steps.LeaveKeepsInv | ioctl_module.c:438-446 | releasing mutexlock keeps the invariant |
| Steps.LockKeepsInv | vec_load_unload.c:429-449 | taking and releasing list_lock keep the invariant |
| Steps.SetGetKeepsInv | ioctl_module.c:238-246 | the look-up of SET keeps the invariant: the new reference is carried by the task |
| Steps.SetShowKeepsInv | ioctl_module.c:84-96 | reading the record of the old vector keeps the invariant, and the record contains a line break |
| Steps.SetReduceKeepsInv | ioctl_module.c:101-109 | the attempt to drop the old reference keeps the invariant and leaves the registry as it is |
| Steps.SetPointerKeepsInv | ioctl_module.c:249-250 | clearing and installing the pointer keep the invariant: the old reference is leaked, the new one moves behind the pointer |
| Steps.RemReduceKeepsInv | ioctl_module.c:286-294 | dropping the reference on the vector the task holds keeps the invariant |
| Steps.RemClearKeepsInv | ioctl_module.c:296-296 | clearing the pointer after that keeps the invariant |
| Steps.ExitKeepsInv | vec_load_unload.c:566-595 | a task's exit, with its release by address, keeps the invariant |
| Steps.CrCheckKeepsInv | dynamic_vector.c:114-116 | the check for a vector with this bitmap keeps the invariant, whether it finds one or begins a creation |
| Steps.CrAdoptKeepsInv | dynamic_vector.c:120-122 | pointing the task to the vector that was found keeps the invariant |
| Steps.CrBuildKeepsInv | dynamic_vector.c:141-191 | building the list keeps the invariant: it is allocated and held by the creating task |
| Steps.CrPinKeepsInv | dynamic_vector.c:196-196 | pinning the module keeps the invariant: the pin counts for the creation in flight |
| Steps.CrRegisterKeepsInv | dynamic_vector.c:197-197 | the registration keeps the invariant: no second vector for the bitmap, and the pin becomes the refcount's |
| Steps.CrInstallKeepsInv | dynamic_vector.c:199-204 | installing the pointer and remembering the list keep the invariant |
| Steps.ClRefKeepsInv | fork.cpy:1325-1327 | the reference a sharing fork takes keeps the invariant |
| Steps.ClCopyKeepsInv | fork.cpy:1328-1331 | the child's pointer, or the fork's failure, keeps the invariant: a failed fork leaks the reference |
| Steps.ClFindKeepsInv | sys_clone2.cpy:49-51 | finding the child keeps the invariant |
| Steps.ClGetKeepsInv | sys_clone2.cpy:52-52 | the look-up by id keeps the invariant |
| Steps.ClStoreKeepsInv | sys_clone2.cpy:53-55 | the store into the child keeps the invariant, wherever the child is by then |
| Steps.LdBuildKeepsInv | vector1_module.c:118-143 | building a static module's list keeps the invariant |
| Steps.LdRegisterKeepsInv | vector1_module.c:146-147 | registering it keeps the invariant |
| Steps.UnBeginKeepsInv | dynamic_vector.c:235-239 | the beginning of an unload keeps the invariant: the cleaning task takes over what the module remembered |
| Steps.UnLoopKeepsInv | dynamic_vector.c:239-239 | the next round of the cleanup loop keeps the invariant |
| Steps.UnRemoveKeepsInv | dynamic_vector.c:240-240 | the unregistration in the cleanup loop keeps the invariant, whatever its result |
| Steps.UnFreeKeepsInv | dynamic_vector.c:241-243 | freeing a list that was unregistered keeps the invariant |
| Safety.StepKeepsInv | ioctl_module.c:187-446 | every disciplined step of every task keeps the invariant: refcounts, list ownership, pins, remembered lists, one creation at a time |
| Safety.RunKeepsInv | ioctl_module.c:187-446 | so does every disciplined schedule |
| Safety.AnyStart | ioctl_module.c:187-207 | runs begin with any number of tasks that are about to do anything |
| Safety.ReachableNext | ioctl_module.c:187-446 | initial states are reachable, and so is what a disciplined step of any task makes of a reachable state |
| Safety.AttainableNext | ioctl_module.c:187-446 | and any step at all leads from an attainable state to another |
| Safety.NoDanglingVector | vec_load_unload.c:281-595 | in every reachable state a vector that a task uses is allocated and registered under one entry with a positive refcount, unless the task is itself inside a REMOVE |
| Safety.ExactLedger | vec_load_unload.c:494-595 | a refcount is exactly the number of tasks that point to the vector and references they carry, plus the leaked references |
| Leaks.StepLeaks | ioctl_module.c:238-250 | every step, disciplined or not, leaks exactly what it replaces while held, takes for a fork that fails, finds no child for, or reads differently the second time |
| Leaks.ReplacementExact | ioctl_module.c:249-250 | what counts as a replacement overwrites a pointer to the vector that is in use, and makes no task |
| Leaks.ForkLeakExact | fork.cpy:1325-1332 | a failed fork and a second read are what they are called: a fork that has the reference and makes no task, or, sharing, one with another vector |
| Leaks.LostStoreExact | sys_clone2.cpy:53-55 | a lost store gives the vector to no task that was not using it |
| Leaks.RunLeaks | fork.cpy:1325-1332 | so does every run: the leaked references are the sum over its steps, by cause |
| Leaks.LedgerOfRun | dynamic_vector.c:114-122 | at the end of every disciplined run a refcount is the number of tasks that point to the vector and references they carry, plus replacements while held, forks failed with a reference, and stores without a child, counted over the run |
| Safety.UnregisterExact | vec_load_unload.c:406-415 | unregistering succeeds if and only if no task uses the vector and no reference on it was leaked |
| Safety.ListHeldIsUnregistered | dynamic_vector.c:141-205 | a list that is built and not registered, or unregistered and not freed, is allocated and nobody can find it |
| Safety.NoListLost | dynamic_vector.c:141-246 | in every reachable state a list is allocated if and only if it is registered or some task has yet to register or free it; never both, under one entry or by one task |
| Safety.FreeIsSafe | dynamic_vector.c:239-243 | what cleanup frees after a successful unregistration is allocated, no task uses it and no search finds it |
| Safety.UnusedExact | vec_load_unload.c:406-415 | nobody uses a vector if and only if the only references it has are leaked ones |
| Safety.FreeExact | dynamic_vector.c:239-243 | whatever unregister_syscall answered, the list that is freed is used by nobody if and only if it was unregistered or all its references are leaked |
| Guards.CarefulIsDisciplined | vec_load_unload.c:371-375 | with the guards checked so far a sharing fork reads one pointer twice, and cleanup frees what it unregistered |
| Guards.LiveIsCareful | vec_load_unload.c:371-375 | while no module is being unloaded every step is careful, but for a REMOVE of a vector its caller does not hold and a sharing clone of a task that is about to be given a vector |
| Guards.CarefulIsLegal | vec_load_unload.c:444-486 | every run that keeps to the guards is disciplined at every step: vectors of modules that cannot be pinned are not referenced, and what a module remembers is its own |
| Guards.CarefullyReachableNext | vec_load_unload.c:444-486 | and careful runs begin with any initial state and go on with any careful step |
| Guards.CleanupFreesUnused | dynamic_vector.c:235-246 | after every such run unregister_syscall has never answered that a list is in use, and what cleanup frees nobody uses or finds |
| Safety.UnpinnedModuleIsUnused | vec_load_unload.c:371-375 | when a module's pin count is 0 all refcounts of its vectors are 0 and no task uses one |
| Unload.SoloUnload | dynamic_vector.c:235-248 | a module that is loaded and not pinned, the dynamic one with nobody inside an ioctl, is unloaded when asked to, if nobody interrupts: its pins are gone, every list it remembered is unregistered one after the other and freed, and only what others remembered still is |
| Unload.SoloRefused | dynamic_vector.c:235-248 | a module that is not loaded, is pinned, or is the dynamic one while somebody is inside an ioctl stays as it is, and nothing else changes either |
| Unload.StepKeepsTended | dynamic_vector.c:196-204 | every step keeps every vector of a loaded module remembered, as often as there are vectors at its address, NULL lists included |
| Unload.UnloadLeavesNothing | dynamic_vector.c:235-248 | from every reachable state an uninterrupted unload that may go ahead leaves the registry without the module's vectors, with all others in their order and with their refcounts, and frees exactly the lists the module remembered |
| Unload.EventsArePossible | dynamic_vector.c:196-240 | what the tasks of a reachable state are about to register and unregister is what DynamicRuns takes for possible: a creation where nobody else's list is, others where the dynamic module remembers nothing |
| Unload.EventsAreSteps | dynamic_vector.c:196-240 | and what those steps, and all acquisitions and releases, do to the list of vectors is what DynamicRuns makes of the event |
| Uniqueness.OneVectorPerBitmap | dynamic_vector.c:114-197 | two dynamic vectors never have the same bitmap with a flag in 831, in any interleaving, disciplined or not |
| Uniqueness.StepKeepsUnique | ioctl_module.c:405-416 | every step of every task keeps one vector a bitmap, and keeps the bitmap of a creation in flight unregistered: while mutexlock is held no other task creates anything |
| Uniqueness.DynamicsAreStandard | dynamic_vector.c:130-139 | in every interleaving dynamic vectors have accepted bitmaps and are named and numbered by them |
| Counting.NoList | ioctl_module.c:128-160 | the accepted bitmaps without a flag in 831 are 0, 64, 128 and 192 |
| Counting.FiveHundredSeventyTwo | ioctl_module.c:128-160 | of all bitmaps 576 are accepted, and 572 of these have a flag in 831 |
| Counting.DynamicBitmapsExact | dynamic_vector.c:114-197 | the bitmaps that are counted are those of the dynamic vectors with a flag in 831 |
| Counting.AtMost572 | dynamic_vector.c:114-197 | in every interleaving, disciplined or not, the dynamic module has at most 572 vectors with a list; all its vectors have accepted bitmaps and are named after them |
| Counting.TwelveAreShown | ioctl_module.c:301-310 | in every interleaving, disciplined or not, twelve registered vectors, the static ones being named like those of both modules, are printed into the 256 bytes |
| Safety.RegisteredListsAreRemembered | dynamic_vector.c:203-246 | every registered list is remembered for cleanup exactly once and no other list is |
| Safety.RemoveExact | ioctl_module.c:286-296 | after a REMOVE no refcount is below its number of users if and only if the name is unknown, or is that of a NULL list, of the caller's vector, or of one with a leaked reference |
| Safety.RemoveAnswers | ioctl_module.c:286-296 | in every reachable state a REMOVE of a vector with a list answers, with nobody in between, how many tasks and references in flight still claim it, and the leaked ones |
| Safety.RemoveDisciplineExact | ioctl_module.c:286-296 | the discipline asks no more of a REMOVE than it must: while nothing is leaked, a REMOVE that does not find a NULL list leaves no refcount below its number of users if and only if it is disciplined |
| Safety.CopyDisciplineExact | fork.cpy:1325-1332 | nor of a sharing fork: while nothing is leaked, a second read that gives a vector leaves no refcount below its number of users if and only if it is disciplined |
| Safety.CopyExact | fork.cpy:1325-1328 | after the second read of a sharing fork no refcount is below its number of users if and only if that read gives no vector, the one referenced before, or one with a leaked reference |
| Progress.StepKeepsControl | ioctl_module.c:187-446 | every step, disciplined or not, keeps each lock with the one task that is inside it |
| Progress.MutualExclusion | vec_load_unload.c:326-595 | in every run no two tasks are inside list_lock or inside mutexlock |
| Progress.WaitsExact | vec_load_unload.c:429-449 | a task cannot take a step if and only if it has finished, or waits for a lock that another task is inside of |
| Progress.ListIsLocked | vec_load_unload.c:174-595 | no step changes the list of vectors but one of the task that holds list_lock |
| Progress.NoDeadlock | ioctl_module.c:187-446 | in every run, while some task is not finished, some task can take a step |
| Progress.StepSpends | dynamic_vector.c:108-248 | every step lowers the work that is left |
| Progress.EveryRunEnds | dynamic_vector.c:235-248 | no schedule is longer than the work there was at the beginning, children and cleanups included |
| Solo.ReplaceDropsNothing | ioctl_module.c:76-121 | whatever the names are, if_assigned_reduce leaves the old vector's entry as it is; it changes the registry if and only if a vector is set, some vector is named like the whole text, and the text does not begin like the one for no vector; never over names that are non-empty and have no line break |
| Solo.SoloSet | ioctl_module.c:209-252 | the steps of an uninterrupted SET add up to SetVector on the registry and the caller's pointer |
| Solo.SoloRemove | ioctl_module.c:255-299 | those of a REMOVE to RemoveVector |
| Solo.SoloCreate | ioctl_module.c:383-430 | those of a CREATE to CreateVector, with the list allocated and remembered exactly when one has to be built |
| Solo.SoloGone | ioctl_module.c:170-190 | once the dynamic module is unloaded a request changes nothing |
| SoloClone.SoloClone | sys_clone2.cpy:44-58 | the steps of an uninterrupted clone that does not fail give the child the vector and the reference that Cloned says, and leak nothing |
| SoloClone.SoloFailedClone | fork.cpy:1325-1332 | those of one that fails make no task, and leak the reference that a sharing one took |
| SoloClone.SoloChildGone | sys_clone2.cpy:49-52 | when the child has exited before it is found, nothing is looked up and no reference taken |
| SoloClone.SoloExit | vec_load_unload.c:566-595 | those of an exit drop the task's reference by address and end it |
| Races.StrayRemove | ioctl_module.c:274-296 | a REMOVE of another task's vector lets that task's pointer dangle in some run |
| Races.SoloLoad | vector1_module.c:118-152 | the uninterrupted steps of a load register the module's vector at the head with refcount 0, and have its list remembered; the module can be pinned from then on |
| Races.ReplaceLeaks | ioctl_module.c:209-252 | setting the vector one holds once more ends, in some run, with one task and two references on it |
| Races.ForcedFree | dynamic_vector.c:235-246 | so does cleanup of a vector that another task took after the pins were checked, since its list is freed on -2222 |
| Races.TornFork | fork.cpy:1325-1328 | so does a store into a task that is between the two reads of a sharing fork |
| Races.CreateTwice | dynamic_vector.c:196-204 | two CREATEs with an accepted bitmap that has no flag in 831 end, in some run, with two vectors for it |
| Races.OncePerBitmapExact | dynamic_vector.c:114-204 | a bitmap that is accepted has at most one dynamic vector in every interleaving if and only if it has a flag in 831, and the same holds of disciplined runs alone |
| VectorList.ListDel | vec_load_unload.c:309-310 | unlinking a node leaves the ring without it, in both directions |
| VectorList.PutRecord | vec_load_unload.c:65-84 | one entry's three lines are written behind what is there, and nothing after them |
| VectorList.VectorList.Walk | vec_load_unload.c:431-442 | the walk ends at the first match, or at the sentinel if there is none |
| VectorList.VectorList.Get | vec_load_unload.c:348-379 | the walk, the count and the pin together are Acquire |
| VectorList.VectorList.GetVectorAddress | vec_load_unload.c:423-453 | the same by name |
| VectorList.VectorList.GetVectorAddressFromId | vec_load_unload.c:458-488 | the same by bitmap |
| VectorList.VectorList.IncrementRefCountFromAddress | vec_load_unload.c:530-560 | the same by address, with 0 or -1 for found or not |
| VectorList.VectorList.Reduce | vec_load_unload.c:494-523 | the walk, the count and the release of the pin together are Release, with the count that is left or -1 |
| VectorList.VectorList.AddVectorAddress | vec_load_unload.c:174-222 | a new entry is at the head, the others follow as they were; without memory nothing changes |
| VectorList.VectorList.RemoveVectorAddress | vec_load_unload.c:281-318 | the pointer surgery is Unregister, with its results |
| VectorList.VectorList.ShowAllVectors | vec_load_unload.c:45-93 | the buffer gets exactly the records of all entries in order, and what follows is untouched |
| VectorList.VectorList.ShowMyVector | vec_load_unload.c:105-168 | the buffer gets the record of the first entry with the address, or the text for no vector, or nothing |
| Display.StrtolDecimal | demo/user_ioctl1.c:83-83 | strtol reads what sprintf printed |
| Flags.StrtolReads | demo/user_ioctl1.c:83-83 | strtol skips blanks, takes a sign, and stops where the digits do |
| Flags.PrintedFlags | demo/user_ioctl1.c:83-126 | the flags printed for a bitmap are exactly those of 1 to 512 that are set, each once, in the order of the tests, and for a bitmap up to 1023 add up to it |
| Flags.PrintedIsBuilt | demo/user_ioctl1.c:87-126 | they are the flags of the list that is built for the bitmap if and only if neither 64 nor 128 is set |
| Flags.NegativeFlag | demo/user_ioctl1.c:87-126 | for a negative number a flag is tested on its two's complement in 32 bits |
| Display.RoundTripExact | demo/user_ioctl1.c:70-141 | the client shows exactly the names, ids and bitmaps of the registry in order if and only if every name is non-empty and has no line break |
| Display.OneShown | demo/user_ioctl1.c:80-135 | of three lines the first is shown as a name, the second as an id, and the third as a bitmap with its flags |
| Display.MineIsSlice | vec_load_unload.c:105-168 | the record of a registered address is that entry's slice of the listing |
| Display.Strtok | demo/user_ioctl1.c:137-137 | one call gives the next token of what is left and leaves the rest of the buffer intact |
| Display.DisplayVectors | demo/user_ioctl1.c:70-141 | the loop prints what the text in the buffer says, token by token |
| Display.IoctlShowAll | ioctl_module.c:301-310 | the answer is the listing, or the text for an empty registry, as a C string |
| Display.ShowAll | demo/user_ioctl1.c:57-141 | from the heap registry to the client: it shows every entry, or that there is none |
| OverrideList.Builder.AddSyscall | dynamic_vector.c:51-81 | exactly one node is appended behind all others, which stay as they are; without memory nothing changes |
| OverrideList.Builder.DeleteVector | dynamic_vector.c:83-106 | every node of the list is freed once, nothing else is, and no freed node is read |
| OverrideList.KeptExact | dynamic_vector.c:141-191 | the installed list stands for the whole of bitmap & 831 if and only if no node allocation failed |
| OverrideList.KeptFails | dynamic_vector.c:141-191 | bitmap 1 without memory for its only node is installed as a list that stands for nothing |
| DynamicModule.DynamicModule.BuildList | dynamic_vector.c:141-191 | the list is made of new nodes for the flags that are set and could be allocated, in order |
| DynamicModule.DynamicModule.Remember | dynamic_vector.c:203-204 | the list goes into the next slot, apart from all others, which keep their nodes, and with the bitmap and the kmalloc answers it was made for |
| DynamicModule.DynamicModule.Publish | dynamic_vector.c:196-201 | the module is pinned, the vector registered if there is memory, and the task points to the list either way |
| DynamicModule.DynamicModule.AddVectorFromBitmap | dynamic_vector.c:108-217 | the whole call: a vector that is found is adopted, else a list is built, registered, installed and remembered, and list_heads has the result behind what it had; without memory for the name nothing is; no list that was there changes |
| DynamicModule.DynamicModule.CleanupOverride | dynamic_vector.c:235-248 | all lists are unregistered in order and freed; every node once, and nothing stays allocated |
| DynamicModule.SweepExact | dynamic_vector.c:239-246 | the loop leaves, in order, the vectors of others, those in use, and those behind one in use at the same address, as NULL lists share theirs: none of the module's own if and only if no refcount is positive; NULL lists and failed registrations included |
| DynamicRuns.RunKeeps | dynamic_vector.c:196-204 | in every run of creations (NULL lists and failed registrations included), counts, and registrations and unregistrations by others, list_heads has the address of each of the module's vectors as often as there are vectors at it or more often, and of nobody else's |
| DynamicRuns.CleanupAfterRun | dynamic_vector.c:235-248 | at the end of every such run the cleanup loop leaves exactly the survivors, and none of the module's vectors if and only if none of them has a positive refcount |
| DynamicRuns.RunPointsRight | dynamic_vector.c:141-204 | at the end of every such run each of the module's vectors points to a list that was built for the vector's own bitmap |
| DynamicRuns.VectorDecodes | dynamic_vector.c:141-204 | on the heap: that list still has exactly what its bitmap asked for and kmalloc gave, and decodes to bitmap & 831 if and only if no node allocation failed |
| DynamicRuns.ServesExact | dynamic_vector.c:108-139 | add_vector_from_bitmap builds a list if and only if the first vector with the bitmap has none and there is memory for the name; it ends on a list of the module's own unless that vector is another module's |
| DynamicRuns.AddVector | dynamic_vector.c:108-217 | on the heap: add_vector_from_bitmap keeps both, the first unless another module has a list where the new one is; and its caller ends on the list of the bitmap it asked for, unless the vector found is another module's or there was no memory for the name |
| DynamicRuns.Cleanup | dynamic_vector.c:235-248 | on the heap: then cleanup frees every node and leaves exactly the survivors |
| StaticModule.StaticModule.AddAll | vector1_module.c:123-142 | the overrides are all added in order, or the call fails at the first allocation that does |
| StaticModule.StaticModule.InitVector | vector1_module.c:118-152 | for any overrides and any failures: the complete list is registered, or everything is freed, the head is NULL and the registry is as before; only a failed registration keeps the list |
| StaticModule.StaticModule.CleanupOverride | vector1_module.c:176-184 | the vector is unregistered and its list freed |
| StaticModule.StaticModule.LoadAndUnload | vector1_module.c:118-184 | loading and unloading restores the registry; a list stays behind if and only if its registration failed |
| StaticModule.LeftBehind | vector1_module.c:146-151 | a module with one override whose registration finds no memory is loaded and unloaded, and its node is still allocated |
| StaticModule.StaticVectorsDecode | vector2_module.c:120-148 | the vectors of both modules are named after their bitmaps, decode to them, and override no call twice |
| Ioctl.OutcomeIsSolo | ioctl_module.c:207-436 | with memory and readable arguments custom_ioctl is SetVector, RemoveVector or CreateVector, which the steps of the protocol add up to |
| Ioctl.NoMemoryExact | ioctl_module.c:193-232 | the result is -12 if and only if there is no memory for the buffer, or for the name of a SET or REMOVE |
| Ioctl.NoReplyExact | ioctl_module.c:301-380 | it is -14 if and only if a reply cannot be copied out |
| Ioctl.InvalidExact | ioctl_module.c:209-436 | it is -22 if and only if the argument cannot be read, a SET names no vector with a list, a REMOVE none with a reference, a bitmap is not accepted, or the request is unknown |
| Ioctl.FailureKeeps | ioctl_module.c:209-436 | a call that fails leaves the caller's pointer, and leaves the registry unless a SET or REMOVE got as far as finding its name: a NULL list stays referenced, a count goes below zero |
| Ioctl.SetExact | ioctl_module.c:209-252 | a SET that succeeds answers 0, points the caller to the vector of that name, and over names without line breaks counts one reference on it and changes nothing else |
| Ioctl.RemoveExact | ioctl_module.c:255-299 | a REMOVE that succeeds clears the caller's pointer, takes one reference from the vector of that name and changes nothing else, and answers the refcount that is left |
| Ioctl.CreateExact | ioctl_module.c:383-430 | a CREATE that succeeds answers the address its caller then points to: a vector with this bitmap and a list, with one more reference, or a new list, whose vector is at the head with one reference and a pin if there was memory for it |
| Ioctl.ReplyExact | ioctl_module.c:301-380 | a reply is the listing or the text for an empty registry, or the slice of the listing that belongs to the vector asked about, or the text for none |
| Ioctl.IoctlModule.IfAssignedReduce | ioctl_module.c:76-121 | the buffer, its text and the release by that text, on the heap registry |
| Ioctl.IoctlModule.SetVector | ioctl_module.c:209-252 | IOCTL_SET on the heap, every failure included |
| Ioctl.IoctlModule.RemoveVector | ioctl_module.c:255-299 | IOCTL_REMOVE on the heap, every failure included |
| Ioctl.IoctlModule.CreateVector | ioctl_module.c:383-430 | IOCTL_CREATE_FROM_BITMAP on the heap, every failure included |
| Ioctl.IoctlModule.Show | ioctl_module.c:301-380 | the three requests that show: the listing, the record of the caller's vector or that of another task's, every failure included; the registry stays as it is |
| Ioctl.IoctlModule.CustomIoctl | ioctl_module.c:170-446 | the whole call has the outcome and the reply of its request, one of the six of the switch or an unknown one, and mutexlock is free again on every path |
| Fork.CourseExact | fork.cpy:1309-1595 | a fork with acceptable flags succeeds if and only if nothing stops it, and else ends at the first place that does |
| Fork.FlagsExact | fork.cpy:1266-1307 | the flags are refused if and only if one of the six checks refuses them |
| Fork.SucceedsExact | fork.cpy:1309-1595 | nothing stops a fork if and only if both limits leave room (or the caller may exceed its own) and nothing fails that is called: handlers, signals and mm only when they are not shared, the executable only for an mm of its own, no pid for an idle task |
| Fork.LabelsExact | fork.cpy:1645-1686 | from the label a failure jumps to, falling through reaches each of the sixteen undoings if and only if what it undoes was done |
| Fork.KeptReference | fork.cpy:1325-1328 | what a failed fork keeps is one reference, if the vector is registered; one release by address gives it back |
| Fork.Kernel.Mmput | fork.cpy:707-728 | a user less; the mm is freed at none |
| Fork.Kernel.DupMm | fork.cpy:925-958 | a new mm with one user, or nothing, at whichever place it fails |
| Fork.Kernel.CopyMm | fork.cpy:960-1004 | the parent's mm with one more user, an own one, or none; a failure changes nothing |
| Fork.Kernel.CopySighand | fork.cpy:1079-1095 | the parent's handlers with one more count, or own ones |
| Fork.Kernel.CleanupSighand | fork.cpy:1097-1107 | a count less; the handlers are freed at none |
| Fork.Kernel.CopySignal | fork.cpy:1128-1176 | the parent's signals for a thread, else own ones |
| Fork.Kernel.DupTaskStruct | fork.cpy:345-407 | a new task with a stack of its own on the account, or nothing |
| Fork.Kernel.FreeTask | fork.cpy:233-243 | task and stack are freed and off the account |
| Fork.Kernel.FromMm | fork.cpy:1471-1657 | from copy_mm on: a failure restores the users of the parent's mm and frees a new one |
| Fork.Kernel.FromSignal | fork.cpy:1468-1660 | from copy_signal on: a failure also frees new signals |
| Fork.Kernel.FromSighand | fork.cpy:1465-1662 | from copy_sighand on: a failure also restores the count of the parent's handlers or frees new ones |
| Fork.Kernel.FromLimit | fork.cpy:1338-1682 | from the process limit on: a failure also restores the process count |
| Fork.Kernel.CopyProcess | fork.cpy:1255-1687 | every fork that fails restores all counters of its parent and frees all it allocated, and keeps exactly the vector reference, if it came so far; flags are refused if and only if they should be; one that succeeds shares or owns what the flags say and counts it, within the limits: with CLONE_SIGHAND the handlers and the mm are the parent's, with CLONE_THREAD the signals too |
| Sharing.CountedFork | fork.cpy:960-1176 | if every mm, handler table and thread group counts the tasks that share it, and every task has a stack of its own, then so it is after any fork, whether it fails or not, but for the group that an idle task joins, which does not count it |
| Clone.SysClone2 | sys_clone2.cpy:34-59 | the child's vector and the one reference for it, chosen by flag or id; a child that pid_task does not find any more gets none unless it shares; a failed fork looks nothing up, and keeps a reference on the parent's vector exactly if it shared and came so far |
| Clone.KeptMoved | fork.cpy:1325-1332 | a fork that fails keeps one reference and its pin if and only if it shares, its flags are accepted, it had a new task and its parent's vector is registered; else nothing |
| Clone.ClonedExact | sys_clone2.cpy:44-58 | a child holds its parent's vector or the first with the id, and exactly that vector's refcount rises, by one, with its module's pins |
| Clone.GrowExact | sys_clone2.cpy:44-58 | over any tree of clones every task has the vector the original registry gives it, and every refcount rises by the number of new tasks that hold the vector |
| SoloClone.GrowFromReachable | sys_clone2.cpy:44-58 | and that over any tree of uninterrupted clones by a task of any reachable state, since there addresses are distinct and what a task uses is registered |
| VecCopy.InUseExact | vec_copy.c:475-500 | cleanup keeps a vector if and only if its refcount is not 0 |
| VecCopy.InUseDescends | vec_copy.c:475-500 | and keeps the order |
| VecCopy.RunDescends | vec_copy.c:133-228 | in every run of additions, removals, look-ups, releases and cleanups ids fall strictly from head to tail |
| VecCopy.OneVectorPerId | vec_copy.c:157-157 | so an id belongs to one vector |
| VecCopy.AddedExact | vec_copy.c:133-177 | a new vector has the next id, which no other has, no references, and the name, address and owner it was given; searches find it first, and removing it leaves the list as it was |
| VecCopy.CountedList.AddVectorAddress | vec_copy.c:133-177 | a new entry with the next id at the head; without memory neither list nor counter change |
| VecCopy.CountedList.RemoveVectorAddress | vec_copy.c:189-228 | Unregister, and ids keep falling |
| VecCopy.CountedList.GetVectorAddress | vec_copy.c:311-338 | Acquire by name, and ids keep falling |
| VecCopy.CountedList.ReduceRefCount | vec_copy.c:361-387 | Release by name, and ids keep falling |
| VecCopy.CountedList.CleanupModule | vec_copy.c:475-500 | deleting while it walks, it leaves exactly the entries in use, in order, on a ring that is whole |

## Left out

- The overrides themselves (`overridden_syscalls.c`) and the dispatcher that walks a task's list: an override is a system call number and a flag.
- Device registration, `/proc`, `printk`, copying to and from user space beyond whether it succeeds, and the module reference the ioctl module takes on itself.
- IOCTL_VECTOR_FOR_PID with a pid that no task has: the code follows the NULL pointer that `pid_task` returns.
- Protocol.Step: the walks that print the registry hold no lock in the code; here reading a record is one step.
- Protocol.Step: a task's exit is one release by address if its pointer is set; the code that calls `reduce_ref_count_from_address` is not part of this model.
- Protocol.Step: an unload of the dynamic module waits until no ioctl is inside it, since `ioctl_module.c` uses its symbols, and after it the device is gone; the result of `try_module_get` is ignored as in the code, and a module that is being unloaded cannot be pinned.
- Protocol.Step: allocations for names, records and registry entries succeed in the state machine; `Ioctl.dfy`, `DynamicModule.dfy` and `StaticModule.dfy` model their failures for one call at a time. A fork that fails before it takes the reference is no step at all.
- Protocol.Step: a sharing fork reads the pointer it takes a reference on inside the list_lock section; the code reads it as an argument, just before it takes the lock, and so presumably does the exit. The second read of a fork is a step of its own.
- Protocol.Step: a static module is loaded once, under a number of its own, and its vector's name has no line break. A store by `sys_clone2` into a child that has exited is lost.
- VectorList.PutRecord: requires that the record fits the buffer and every number its array of eight, because the code checks the first only after it has written and the second never.
- VectorList.VectorList.ShowAllVectors: requires the same of the whole listing; `Counting.TwelveAreShown` says when it fits.
- VectorList.VectorList.ShowMyVector: requires the same of the one record it prints.
- Display.IoctlShowAll: requires the same of the whole listing.
- Display.ShowAll: requires the same of the whole listing.
- Ioctl.IoctlModule.IfAssignedReduce: requires that the record of the held vector fits the 256 bytes it is printed to.
- Ioctl.IoctlModule.SetVector: requires that too.
- Ioctl.IoctlModule.Show: requires that of what it prints.
- Ioctl.IoctlModule.CustomIoctl: requires that of a SET and of the requests that show, and of a CREATE that builds a list the free slot as below.
- Display.StrtolDecimal: overflow of `strtol` and of a C int is not modelled, nor is that of a refcount anywhere.
- OverrideList.Builder.AddSyscall: kmalloc returns NULL or the address of nothing that is live; the test for an error pointer has no case.
- DynamicModule.DynamicModule.Remember: requires a free slot among the 256 of `list_heads`, which the code does not check before it writes.
- DynamicModule.DynamicModule.AddVectorFromBitmap: requires the free slot if it builds a list, and the result is the full address, which the code truncates to an int.
- DynamicRuns.AddVector: requires the free slot if it builds a list.
- Ioctl.IoctlModule.CreateVector: requires the free slot if it builds a list.
- Fork.Kernel.CopyProcess: files, file system, semaphores, namespaces, credentials and the like are places where a fork can fail; what their own counters do is not modelled, because the functions that release them are not part of this repository. `copy_creds` is not part of it either, and is taken to count the process that the ladder takes off again. The error number is the place where the fork gave up.
- Fork.Kernel.CopyProcess: the calls behind one another are written as nested calls. `Fork.JumpsTo` is the table of the labels they jump to, and each piece of undoing is done if falling through from there comes past it.
- `sys_clone2.c`, which calls a `_do_fork` with one more argument; the model pairs `sys_clone2.cpy` with `fork.cpy`.
- The rest of `fork.cpy`, `sched.cpy`, the superseded `vec_load_unload.bak`, and the clients and tests other than `display_vectors`.
