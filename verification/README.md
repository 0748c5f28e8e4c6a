# Whalewatcher, verified

Whalewatcher keeps a portfolio of the alive containers of a container engine. One thread handles the engine's
lifecycle events in order; another lists all containers, which takes many round trips, so that its findings have no
order relative to the events. A gate, a list of tombstones, a queue of pause states and a pair of portfolios
reconcile the two. This project models that protocol and the data structures under it, and proves what they are for.

| file | what it models |
|---|---|
| `Containers.dfy` | container details, lookups by ID |
| `PauseQueue.dfy` | the queue of pending pause states, as functions and as the object updated in place |
| `WatcherModel.dfy` | the watcher's shared state as a value, one function per uninterruptible section |
| `Protocol.dfy` | engine, event thread and listing threads as a transition system over any number of attempts |
| `ProtocolInvariant.dfy` | the invariant, ID by ID, and that every step within an attempt keeps it |
| `OvertakenCommits.dfy` | commits that a new attempt begins in the middle of, and the invariant over many attempts |
| `Convergence.dfy` | convergence over all runs, and what else follows from the invariant |
| `UndisturbedRuns.dfy` | runs in which one thread gets to work undisturbed |
| `Leftovers.dfy` | exactly when an attempt is sure to converge |
| `Deaths.dfy` | that the dead stay dead, and exactly when an attempt is sure of that |
| `Readers.dfy` | what readers see meanwhile, and exactly when they are safe |
| `Notifications.dfy` | what subscribers can make of the notifications, and exactly when it is the portfolio |
| `Reachability.dfy` | runs from the beginning to each of the states in which the next attempt is not safe |
| `Catalog.dfy` | a portfolio as a map of slices, and the flat collection it stands for |
| `Index.dfy` | a portfolio by container ID, and what names have to do with it |
| `Store.dfy` | `Container`, `ComposerProject` and `Portfolio` as objects over arrays |
| `KnownPortfolios.dfy` | one portfolio object by container ID |
| `WatcherObjects.dfy` | the `watcher` object; its methods do what the functions of `WatcherModel` say |
| `WatcherRuns.dfy` | any sequence of sections on the watcher object |
| `ProtocolSections.dfy` | the sections that a run of the protocol consists of |
| `Subscribers.dfy` | event channels |
| `Moby.dfy` | the Docker listing against an engine that moves between calls |
| `DockerListing.dfy` | that this listing is a listing of the protocol |
| `DisplayId.dfy` | containerd display IDs |
| `AllMatcher.dfy` | the greedy `All` matcher of the test suite |

## How the layers fit

`WatcherObjects` proves each section of `watcher.go` against a function of `WatcherModel`, down to the project objects
and their arrays. `Protocol` lets those same functions interleave, at the boundaries of the locks: taking an event and
passing the gate, inspecting, updating the portfolio; setting the list flag, looking at one container, taking the gate,
getting hold of the portfolio, adding one listed container, playing back one pause state, releasing the gate,
publishing. Births do not need the gate, so they interleave with the commit loops as well. So do new attempts, which
replace the portfolio under a commit that has got hold of it: the commit then goes on writing to the old one, which
readers may still be looking at. `UndisturbedRuns.UndisturbedCommit` shows that the small steps of a commit, when nobody
disturbs them, are the commit function which the object's method is proved against.

Protocol and objects meet in one fold: `ProtocolSections.RunsAreSections` shows that the view in any reachable state is
the fold of the step functions of the sections which the run consists of, and `WatcherRuns.PerformFromStart` that a
watcher object comes to the fold of whatever sections are performed on it, in any order.

History variables help to state the invariant and influence no handler: the engine state as of the events consumed, the
birth details carried by a birth event, of which the handler uses the ID only, and the containers that a listing must
not miss.

## What is assumed

- Within an attempt the event stream loses nothing and keeps its order, and it is in force before the listing starts.
  Between attempts anything may happen unseen: an attempt begins in an arbitrary world, at any point of earlier listings.
- A listing returns every container alive ever since it began, each described as of some instant during it, in the
  attempt that began it; `DockerListing.ListingIsLegal` derives this for Docker. Inspecting a container succeeds if and
  only if it is alive then.
- Mutexes work. An update of a portfolio and its notification are one step; so are an engine change and the queueing of
  its event. Looking a container up and then acting on it counts as one step: if the lookup fails the step happens
  there, if it succeeds its project cannot change, and a project object dropped in between was empty at the instant it
  was dropped.
- The swap at the beginning of an attempt is one step. Counting containers takes no lock on the portfolio
  (`portfolio.go:81-86`), so an overtaken commit might add one while they are being counted; that counts as before or
  after.
- A container's name and project go with its ID, and an ID that is looked up is no other container's name
  (`Index.IdsLeadHomeIffNoNameIsAnId` shows that lookups need just that). Equal names under different IDs are fine, so
  are events about IDs that no container has.
- In the protocol, an event carries the real project of its container, or says that the project is unknown; the methods
  of the object also say what happens otherwise.

## Where the code falls short

For each of the following there are an exact condition, for every state that can be reached (`Reachability.ExactlyWhenSafe`),
and a run from the very beginning to a state where it is not met (the other lemmas of `Reachability`).

- *Synchronisation.* A listing that fails leaves tombstones and queued pause states in place
  (`watcher/watcher.go:439-443`). The next attempt then hides a container that is alive again under a tombstoned ID, or
  shows a stale pause state, for as long as no further event comes. A listing of an earlier attempt that commits late
  adds what it has seen, plays back what was queued, or clears the tombstones under the current listing. An attempt is
  sure to converge if and only if all earlier listings are over and nothing is left of them, or one of them is in the
  middle of its commit and can do nothing to the new portfolio any more (`Leftovers.SureIffClean`).
- *The dead.* They are sure to stay dead throughout an attempt if and only if every earlier listing is over or already
  inside the gate (`Deaths.DeadStayDeadIffInGate`); leftover tombstones and pause states raise nobody.
- *Make before break.* Readers keep what they see during an attempt, until it publishes its own listing, if and only if
  they see something at all and every earlier listing has been published or has failed
  (`Readers.ReadersKeepIffDelivered`). Otherwise an earlier listing publishes the unfinished portfolio
  (`watcher/watcher.go:253-257`), which may even be empty
  (`Readers.LatePublicationBlanks`).
- *Notifications.* A commit that is overtaken goes on notifying about the portfolio that has been replaced. The
  notifications of an attempt tell its portfolio if and only if no commit that it leaves behind has anything left to
  notify (`Notifications.SureToTellIffQuiet`).

## Model

| member | source | states |
|---|---|---|
| Convergence.Converges | watcher/watcher.go:200-495 | over all runs of any number of clean attempts, in every interleaving and with IDs reused: once the current listing has committed and no event is left, the write portfolio is the engine's state, incarnations and pause states included; and once that listing has been published, that is what readers see. What attempts are clean is `Protocol.CleanAttempt` |
| Convergence.SettledIdAgrees | watcher/watcher.go:282-495 | the same per ID: an ID without pending events is in the portfolio if and only if it is alive, as its current incarnation with its current pause state |
| Convergence.PublishedIsOnline | watcher/watcher.go:253-257 | over all runs, clean or not: once the current listing has been published, readers share the write portfolio |
| ProtocolInvariant.InvStep | watcher/watcher.go:282-495 | every step of every thread within an attempt keeps the invariant that ties portfolio entries, listed snapshots, tombstones, queued pause states and the pending events of each ID to the engine |
| OvertakenCommits.KeptStep | watcher/watcher.go:200-495 | every step, clean attempts included, keeps that invariant of the state as it would be without the commit that the attempt has overtaken; so what such a commit still does never shows in the write portfolio |
| OvertakenCommits.KeptAttempt | watcher/watcher.go:216-223 | a clean attempt establishes the invariant in any world, whatever went on before, also in the middle of a commit |
| OvertakenCommits.SoundRun | watcher/watcher.go:448-494 | in every reachable state at most one listing is inside the gate, and one that writes to a still portfolio writes to the one readers look at |
| Convergence.MustMeansThroughout | engineclient/engineclient.go:28-31 | what a listing in progress must come up with are exactly the containers alive in every state since it began |
| Convergence.PublishesComplete | watcher/watcher.go:253-257 | what an attempt publishes lacks no alive container except those whose birth is still to be handled, and shows none whose death has been handled |
| Deaths.DeadStayDead | watcher/watcher.go:341-376 | once a death has been handled and the engine does not restart the ID, no later step of the attempt puts it back, wherever the gate section fell, whatever tombstones and pause states earlier listings have left, and also if one of them is still inside the gate |
| Deaths.DeadStayDeadIffInGate | watcher/watcher.go:341-376 | in every sound state in which an attempt may begin: the dead are sure to stay dead, in all worlds and interleavings, if and only if every earlier listing is over or already inside the gate |
| Leftovers.SureIffClean | watcher/watcher.go:439-455 | in every sound state in which an attempt may begin: all its continuations, in all worlds, converge if and only if the attempt is clean |
| Leftovers.TombstoneHides | watcher/watcher.go:459-463 | any tombstone left over with the gate free makes some run of the next attempt diverge |
| Leftovers.StalePauseFalsifies | watcher/watcher.go:481-492 | any pause state left over with the gate free makes some run of the next attempt diverge |
| Leftovers.LateCommitRaisesTheDead | watcher/watcher.go:246-255 | any earlier listing that has yet to enter the gate makes some run of the next attempt diverge: it clears the tombstones under the current listing |
| Leftovers.OvertakenCommitAdds | watcher/watcher.go:456-472 | so does a commit that goes on with the new portfolio and has something left to add |
| Leftovers.OvertakenCommitPlays | watcher/watcher.go:481-492 | or has a pause state left to play back |
| Reachability.ExactlyWhenSafe | watcher/watcher.go:200-495 | in every state that any run leads to and in which an attempt may begin: the four exact conditions under which the attempt is sure to converge, the dead are sure to stay dead, readers keep what they see, and notifications tell the portfolio |
| Reachability.ConvergenceNeedsCleanRuns | watcher/watcher.go:439-443 | some run from the very beginning comes to rest with a wrong portfolio: convergence without clean attempts is false |
| Reachability.TombstoneIsLeft | watcher/watcher.go:354-356 | a run that leaves a tombstone behind, from where convergence is not sure |
| Reachability.PauseStateIsLeft | watcher/watcher.go:385-395 | a run that leaves a pause state behind, from where convergence is not sure |
| Reachability.ListingIsLeft | watcher/watcher.go:262-273 | a run that leaves a listing under way, from where convergence is not sure |
| Reachability.CommitIsLeft | watcher/watcher.go:448-457 | a run that leaves a commit under way, from where convergence is not sure |
| Reachability.HarmlessCommitIsLeft | watcher/watcher.go:456-472 | a run that leaves a commit under way a little later: from there convergence is sure, though pause states are left and the listing is not over, and notifications are not sure to tell the portfolio |
| Reachability.PublicationIsLeft | watcher/watcher.go:253-257 | a run that leaves a publication to come: readers see a container, the next attempt is clean, and whatever the world, readers may be shown nothing instead |
| Readers.StillUntilPublished | watcher/watcher.go:216-223 | while readers look at an older portfolio, no step but a publication, or a commit that has been overtaken, changes it, and the latter removes nothing; an attempt begins with an empty write portfolio and changes nothing for readers |
| Readers.MakeBeforeBreak | watcher/watcher.go:213-223 | in every reachable state readers see the write portfolio or a non-empty older one |
| Readers.ReadersKeepIffDelivered | watcher/watcher.go:213-257 | readers keep what they see throughout the next attempt, until it publishes, in all worlds and interleavings, if and only if they see something and every earlier listing has been published or has failed |
| Notifications.EventsTellThePortfolio | watcher/watcher.go:300-334 | in every state of every run in which attempts leave commits behind only quietly, the notifications since the attempt began are consistent and, replayed from nothing, give exactly the write portfolio |
| Notifications.SureToTellIffQuiet | watcher/watcher.go:459-492 | in every sound state in which an attempt may begin: its notifications tell its portfolio at all times, in all worlds and interleavings, if and only if no commit that it leaves behind has anything left to notify |
| UndisturbedRuns.FinishCommit | watcher/watcher.go:456-494 | a commit that nobody disturbs does all that it has left to do to the portfolio that it has got hold of, whichever that is by now, and to nothing else |
| UndisturbedRuns.UndisturbedCommit | watcher/watcher.go:448-494 | the steps of a commit that nobody disturbs amount to the commit function |
| WatcherModel.CommitClosedForm | watcher/watcher.go:448-494 | by ID: a commit keeps the old content, adds the first listing of each ID neither tombstoned nor known, overrides pause states by the queue, notifies one start per container really added, and clears flag, tombstones and queue |
| WatcherModel.GateMeaning | watcher/watcher.go:351-398 | the sections at the gate, by ID and in any state: a death leaves a tombstone while a listing is in progress, and its pause state is forgotten in any case; a pause state change replaces what was queued for its ID while a listing is in progress; neither touches anything else |
| WatcherModel.PlayBackOfWindow | watcher/watcher.go:481-492 | playing back the compacted queue of a window sets every known container to its last pause state since its last death, and no other |
| WatcherModel.PlayBackIgnoresOrder | watcher/watcher.go:481-492 | the order in which swap-removal left the queue does not matter |
| WatcherModel.CommitKeepsSourced | watcher/watcher.go:468-492 | a whole commit keeps notifications and portfolio in step |
| PauseQueue.CompactionKeepsMeaning | watcher/state.go:30-52 | after any sequence of pauses and deaths the compacted queue holds, per ID, exactly the last pause state after its last death |
| PauseQueue.AddedMeaning | watcher/state.go:30-39 | adding replaces or appends, keeps IDs distinct, and changes the meaning of the queue at that ID only |
| PauseQueue.RemovedMeaning | watcher/state.go:41-52 | swap-removal keeps IDs distinct and forgets that ID only |
| PauseQueue.OrderIrrelevant | watcher/state.go:24-28 | queues with the same entries in any order mean the same |
| PauseQueue.PendingPauseStates.Add | watcher/state.go:31-39 | the in-place update is the one whose meaning is proved |
| PauseQueue.PendingPauseStates.Remove | watcher/state.go:43-52 | the in-place swap-removal is the one whose meaning is proved |
| Catalog.AddedFlat | portfolio.go:106-123 | Add puts a container into the flat collection unless its project, name and ID are taken |
| Catalog.HoldsFlat | project.go:133-137 | the search of one project's slice decides whether project, name and ID are taken anywhere |
| Catalog.RemovedFlat | portfolio.go:125-144 | Remove takes exactly the target out of the flat collection, also from the last slot |
| Catalog.PausedFlat | project.go:84-107 | SetPaused changes exactly the target, and only its pause state |
| Catalog.TargetFlat | project.go:152-165 | the target is a container of that project answering to the name or ID, and there is none only if none does |
| Catalog.FlatIsKeyed | project.go:126-140 | project, name and ID identify a container in the flat collection, and nothing is there twice |
| Catalog.SwapRemovedContent | project.go:160-162 | swap-removal drops one element and nothing else |
| Catalog.AddedAllFlat | watcher/watcher.go:459-472 | the first commit loop in closed form, by project, name and ID: the old content plus every listed container that is neither dead nor there yet and is the first such in the list, each once |
| Catalog.PerformedValid | portfolio.go:106-144 | every operation keeps: the unnamed project exists, named projects are not empty, containers are under their own project, none is there twice |
| Catalog.AddAnswers | portfolio.go:106-123 | Add answers whether it has added the container, and adds it unless one of the same project, name and ID is there |
| Catalog.RemoveAnswers | portfolio.go:125-144 | Remove hands out exactly the container that it has taken out, one of the given project with the given name or ID; none only if there is none, and then nothing changes |
| Catalog.PauseAnswers | project.go:84-107 | SetPaused hands out the one container that it has changed, as it is afterwards, one of the given project with the given name or ID; none only if there is none, and then nothing changes |
| Catalog.LookUpAnswers | project.go:69-82 | looking up a container in a project finds one of that project with that name or ID, none only if there is none, and no project exactly if it has a name but no containers |
| Catalog.ListAnswers | project.go:48-54 | listing a project gives exactly its containers, each once, and no project exactly if it has a name but no containers |
| Catalog.Conservation | portfolio.go:79-144 | after any operations, that invariant holds and there are as many containers as before plus additions that returned true minus removals that returned one |
| Index.SlowPathIffUnambiguous | watcher/watcher.go:364-373 | in any well-formed portfolio: finding a container without its project leads, in every search order, to the very container that a project would have led to, if and only if nothing outside that project answers to the name or ID |
| Index.SlowPathIsFastPath | watcher/watcher.go:364-373 | in particular for an ID that is no other container's name, whether it is a container's ID or not |
| Index.IdsLeadHomeIffNoNameIsAnId | portfolio.go:65-77 | searching for an ID never finds another container, in any well-formed portfolio, if and only if no container's name is another one's ID |
| Index.LookupById | project.go:69-82 | only its own container answers to an ID that is no other container's name |
| Index.AddedById | portfolio.go:109-123 | by ID, Add is an insertion that changes nothing if the ID is there |
| Index.RemovedById | portfolio.go:131-144 | by ID, Remove deletes exactly that ID, if it is in the given project |
| Index.PausedById | project.go:87-107 | by ID, SetPaused changes exactly that entry's pause state, if it is in the given project |
| Store.ComposerProject.Containers | project.go:50-54 | a slice of the caller's own, with the same containers in the same order |
| Store.ComposerProject.Append | project.go:138 | appending keeps what is there, whether it writes into spare capacity or moves to a larger array |
| Store.ComposerProject.Add | project.go:129-140 | appends unless name and ID are there, and says whether it did |
| Store.ComposerProject.Remove | project.go:148-167 | removes the first match by swapping in the last element in place, and returns it |
| Store.ComposerProject.SetPaused | project.go:87-107 | replaces the stored object in its slot by a fresh one with the new state, or returns the same object if nothing changes; no container is written to |
| Store.ComposerProject.Container | project.go:72-82 | returns the first match, or nil if there is none |
| Store.ComposerProject.ContainerNames | project.go:58-67 | the names in slice order |
| Store.Portfolio.constructor | portfolio.go:35-41 | a new portfolio has the empty unnamed project only |
| Store.Portfolio.Names | portfolio.go:44-55 | all project names but the empty one, each once |
| Store.Portfolio.Container | portfolio.go:68-77 | some first match of some project in any order of asking, nil only if no project has one |
| Store.Portfolio.ContainerTotal | portfolio.go:81-86 | the size of the flat collection |
| Store.Portfolio.AllContainers | portfolio.go:91-104 | an undisturbed iteration visits exactly the flat collection, in any project order |
| Store.Portfolio.Add | portfolio.go:109-123 | refines the catalog's Add, creating the project object if needed; no two projects ever share an array |
| Store.Portfolio.Remove | portfolio.go:131-144 | refines the catalog's Remove, dropping a named project that becomes empty, and returns the target |
| Store.Portfolio.SetPausedIn | watcher/watcher.go:413-419 | refines the catalog's SetPaused through a looked-up project |
| Store.PerformOne | portfolio.go:106-144 | any one operation on the objects is the catalog's operation, and hands out what the catalog answers; `Catalog.AddAnswers` to `Catalog.ListAnswers` say which containers these are |
| Store.Perform | project.go:48-167 | over any sequence of operations the objects do what the catalog does, and the total changes by what the operations answered; every container and every slice handed out on the way still shows at the end what the catalog answered at the time, and those held before are as they were |
| KnownPortfolios.RemoveKnown | watcher/watcher.go:367-374 | by ID, removing with the project known or not takes exactly that ID out and returns its container; under another project's name it does nothing |
| KnownPortfolios.PauseKnown | watcher/watcher.go:406-414 | by ID, a pause state change with the project known or not changes exactly that entry, and returns it; under another project's name it does nothing |
| KnownPortfolios.OnlyInItsProject | watcher/watcher.go:364-374 | a container is found, to remove it or to change its pause state, exactly if the project name is its own or the one that stands for an unknown project |
| WatcherObjects.Watcher.constructor | watcher/watcher.go:110-124 | a new watcher shares one empty portfolio, all its own, between reading and writing |
| WatcherObjects.Watcher.BeginAttempt | watcher/watcher.go:216-223 | the portfolio swap refines the attempt step, a replaced write portfolio is a new one, and the swap makes of the portfolio that a commit may have got hold of what the protocol says |
| WatcherObjects.Watcher.Born | watcher/watcher.go:319-334 | adds and notifies what inspection returned, unless the ID is there |
| WatcherObjects.Watcher.GateExited | watcher/watcher.go:351-360 | leaves a tombstone while listing, and forgets queued pause states always |
| WatcherObjects.Watcher.RemoveAndNotify | watcher/watcher.go:361-375 | removes and notifies, with the project known or not; under another project's name it does neither |
| WatcherObjects.Watcher.Demised | watcher/watcher.go:341-376 | both halves of handling a death |
| WatcherObjects.Watcher.GatePaused | watcher/watcher.go:384-398 | queues the state while listing, and says whether it did |
| WatcherObjects.Watcher.PauseAndNotify | watcher/watcher.go:400-420 | changes the state and notifies, with the project known or not; under another project's name it does neither |
| WatcherObjects.Watcher.Paused | watcher/watcher.go:383-421 | both halves of handling a pause state change |
| WatcherObjects.Watcher.ListBegin | watcher/watcher.go:432-434 | sets the flag |
| WatcherObjects.Watcher.AddAlives | watcher/watcher.go:459-472 | the first commit loop refines adding the listed containers, tombstoned IDs skipped, to whichever portfolio the commit has got hold of: the write portfolio, the one readers look at, or one that has been replaced; by ID, and by project, name and ID |
| WatcherObjects.Watcher.PlayBackPauses | watcher/watcher.go:481-492 | the second commit loop refines playing back the queue, likewise |
| WatcherObjects.Watcher.ListCommit | watcher/watcher.go:448-494 | the whole commit, undisturbed, refines the commit function that the closed form is about |
| WatcherObjects.Watcher.Publish | watcher/watcher.go:255-257 | the write portfolio goes online, and a commit that wrote to the still one writes to nobody's |
| WatcherRuns.Perform | watcher/watcher.go:200-495 | over any sequence of sections on the object, events, listing, commits and new attempts in any order, the view and what a commit has got hold of are the fold of the step functions, and nothing is written to but what the watcher has or has made |
| WatcherRuns.PerformFromStart | watcher/watcher.go:110-124 | the same from a new watcher |
| ProtocolSections.RunsAreSections | watcher/watcher.go:200-495 | in every reachable state of the protocol, view and commit are the fold of the step functions of the sections that the run consists of |
| Subscribers.Channel.Send | watcher/watcher.go:307-310 | sending on an open channel |
| Subscribers.Channel.Close | watcher/watcher.go:188-190 | closing an open channel |
| Subscribers.Subscriptions.Events | watcher/watcher.go:130-136 | a new channel starts listening now |
| Subscribers.Subscriptions.Notify | watcher/watcher.go:300-312 | in any state any calls lead to, every open channel gets the notification, no closed one is sent on, and each channel has heard exactly the notifications of its lifetime |
| Subscribers.Subscriptions.Close | watcher/watcher.go:184-192 | closes every open channel once, and none again when repeated |
| Subscribers.SameOrderForAll | watcher/watcher.go:306-311 | any two channels, closed or not, have heard the same during the time that they shared, which is all there was to hear |
| Moby.List | engineclient/moby/moby.go:151-200 | fails if and only if the list call or some inspection fails severely; else returns, each once, only containers that had a process at an instant of the call, with ID, name less the slash, project, PID and pause state as they were at that instant, and all that had one throughout |
| DockerListing.ListingIsLegal | engineclient/moby/moby.go:151-210 | while the engine goes through any run of the protocol, what this List returns is, field by field, what a listing of the protocol may see in that run, looking at one container at a time, and it is enough to commit |
| DisplayId.DisplayReads | engineclient/containerd/containerd.go:384-391 | what is displayed, spelled out |
| DisplayId.DecodeReads | engineclient/containerd/containerd.go:393-401 | the first slash, if there is any, ends the namespace; else it is the default one |
| DisplayId.DecodeAfterDisplay | engineclient/containerd/containerd.go:384-401 | decoding undoes displaying exactly for the default namespace with a slashless ID and for other slashless namespaces |
| DisplayId.DisplayAfterDecode | engineclient/containerd/containerd.go:384-401 | displaying undoes decoding exactly for strings that do not spell out the default namespace |
| DisplayId.DisplayIsInjective | engineclient/containerd/containerd.go:386-391 | displayable pairs have different display IDs |
| DisplayId.DisplayedAlike | engineclient/containerd/containerd.go:386-391 | exactly which pairs have the same display ID |
| DisplayId.ListedAsItIs | engineclient/containerd/containerd.go:258-290 | whatever containers and tasks there are, one is listed exactly if its task runs, is paused or about to be, and then with its PID, project, display ID and name; as paused exactly if it does not run |
| DisplayId.InspectFindsOnlyListed | engineclient/containerd/containerd.go:229-252 | whatever containers and tasks there are, inspecting any string finds what a listing makes of the container whose namespace and ID the string spells, and nothing if there is none |
| DisplayId.InspectFindsListed | engineclient/containerd/containerd.go:229-290 | whatever containers and tasks there are, inspecting a listed container by its ID returns that very container, exactly if its namespace and ID are displayable |
| DisplayId.NameIsNoOthersId | engineclient/containerd/containerd.go:275-281 | exactly when a nerdctl name is another container's ID |
| AllMatcher.All.Match | test/matcher/all.go:35-51 | one call refines the step function: first matcher that accepts or fails decides, an accepting one is ticked off, and an error leaves the matchers as they are |
| AllMatcher.SuccessPairsOff | test/matcher/all.go:26-51 | a run that succeeds pairs values and matchers off one to one |
| AllMatcher.CompleteExactlyAtTheEnd | test/matcher/all.go:44-48 | a run without errors is never longer than there are matchers, and ends in completeness exactly if it is as long |
| AllMatcher.ErrorsLeaveNoTrace | test/matcher/all.go:36-50 | over any values, errors among them: what remains is what remains after the same values without those that ended in errors, one matcher less for each, and that shorter run is without errors |
| AllMatcher.CompletesAfterErrors | test/matcher/all.go:44-50 | polled again after any errors, a value completes the set if and only if it completes the run without the erring values, which are then paired off one to one with the matchers |
| AllMatcher.SucceedsIffPairable | test/matcher/all.go:31-52 | for matchers of which none fails on what a later one accepts, and a later one accepts all that an earlier one accepts if they overlap at all, a run succeeds if and only if values and matchers can be paired off; matchers that are pairwise equivalent or disjoint overlap so (`SeparateIsOrdered`) |
| AllMatcher.LosslessIffOrdered | test/matcher/all.go:35-51 | for all pure matchers, that is exactly what it takes: otherwise there are values that could be paired off and lose, unless some matcher accepts nothing |
| AllMatcher.DisjointLoses | test/matcher/all.go:36-40 | two disjoint matchers and two values that could be paired off, and a run on them that ends in an error at once |

## Left out

- WatcherModel.CommitClosedForm: by ID where the code goes by project, name and ID, which comes to the same as long as name and project go with the ID (Index.AddedById); Catalog.AddedAllFlat does without that.
- WatcherObjects.Watcher.Born: containers whose name or project departs from what goes with their ID are not considered.
- WatcherObjects.Watcher.AddAlives: the same for containers that are listed.
- WatcherObjects.Watcher.ListCommit: the same for containers that are listed.
- WatcherObjects.Watcher.RemoveAndNotify: events about an ID that is another container's name are not considered.
- WatcherObjects.Watcher.Demised: the same.
- WatcherObjects.Watcher.PauseAndNotify: the same.
- WatcherObjects.Watcher.Paused: the same.
- WatcherObjects.Watcher.PlayBackPauses: the same for the IDs in the queue.
- KnownPortfolios.RemoveKnown: the same.
- KnownPortfolios.PauseKnown: the same.
- Moby.List: which replies the daemon gives is a parameter; that it lists every container with a process and inspects truthfully is assumed.
- Store.Portfolio.AllContainers: an iteration that is stopped early, or that overlaps with updates, is not modelled.
- WatcherObjects.Watcher.Notify: it keeps the log of what is sent; delivery to channels is modelled on its own in Subscribers.
- Subscribers.Channel.Send: channels are unbounded logs, a full channel that blocks its sender is not modelled.
- AllMatcher.All.Match: matchers are functions of the value shown; matchers with a state of their own are not modelled.
- The ready channel, about which no claim is made: it closes after a failed listing too.
- Labels, rucksacks, engine identification, and the conversion of containers and projects to strings.
- Docker, containerd and CRI client calls, event decoding, retry timing, cancellation and liveness of threads.
- The listing of containerd, which stitches several calls together without a comparable guarantee, and all of CRI.
- The other matchers, the mocked Docker engine, the watcher factories and the example program.
