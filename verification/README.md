# Traefik Connect: a verified model

Traefik Connect publishes the Docker containers of worker machines through a Traefik on a master
machine. An agent on each worker reads Traefik labels off its containers and posts signed snapshots; a
receiver on the master keeps the newest snapshot of every worker in memory and on disk, and runs one stub
container per published service, whose labels Traefik reads; stub and worker proxy then carry HTTP
requests over a WebSocket tunnel. This project models these parts in Dafny and proves what they promise.

The modules follow the data.

* `Strings`, `Names`, `Model`: the string functions the labels are read and written with, the name
  sanitiser, and the records that travel.
* `LabelParser`, `Backends`, `Export`: from the labels and the network data of a container to the spec that
  an agent sends.
* `LabelPrinter`, `Stubs`, `TlsStubs`, `Desired`: from a spec back to the labels of stub containers, and what
  parsing those labels again gives.
* `Vocabulary`: what containers say and are told, label by label under their full names.
* `PaddedNames`: containers on which the second parse fails.
* `Resolve`, `Handover`, `Journeys`: snapshot validation on the receiver and service lookup on the agent; what a stub
  reads from its environment, tells the worker, and is answered; and the whole way from the labels of a container
  to the address its requests are sent to.
* `Ledger`: replay protection as a state machine over the books (newest captured_at, updated_at) per worker.
* `Paths`: the names of state files.
* `Hosts`, `Reconciler`, `HashSkip`, `Stores`, `Rebuilds`, `Receivers`: Docker, disk and clock; one reconcile run; the
  store; what a start does to all workers; the receiver process over whole runs. Classes and methods have the shape
  of the Go code.
* `Restarts`: what a start does for the time after it.
* `Orphans`, `Replays`: runs of the store and the receiver, from a fresh start, that end with a lost stub or a replay.
* `Agents`, `Network`, `Joint`: the agent's trigger slot, retries and adopted snapshot; agent and receiver over a
  network that loses, delays, duplicates and reorders requests, first as a machine over their records, then
  with the two classes themselves.
* `Frames`, `WireFormat`, `Chunked`, `Tunnel`, `Replies`, `Uploads`: WebSocket frames (sections 5.2 and 5.3 of RFC 6455), HTTP
  chunks (section 7.1 of RFC 9112) and the bodies and heads that cross the tunnel, up to what the client gets.

Loops and field updates of the Go code are methods with loops. Each such method is tied to a
function of its inputs, and lemmas about that function state what the method is for. Go's random map
iteration is a set from which elements are picked without order, so every result below holds for any order.

Crashes. `Hosts.Host` carries a flag `alive`. Any call on the host may be the one at which the receiver dies; after
that no call has an effect, so the state in which an interrupted operation ends is the state at the crash.
Contracts that speak about all end states thereby speak about every crash point. Which calls may fail is
`trust`, and it may change between operations: `Sure` calls work, `MayFail` calls may fail without effect,
`MayTear` calls may also report failure after having worked, `Broken` calls always fail, and of `Tearing` calls the
reply is always lost.

* `Calm`: inspecting images and containers, listing and removing are `Sure`; creating may fail but does not
  tear; connecting and starting may do anything.
* `Flawless`: in addition creating, connecting and starting are `Sure`. Convergence is proved under `Flawless`.
* The frame property needs no such hypothesis, nor do the replay property and orphan-freedom of a post among workers
  that share no file. Orphan-freedom across expiry needs the lists in memory to be complete, which they stay in a calm world unless a worker that is
  not in memory posts and the write fails; so over whole runs it is proved for calm worlds in which either all files can be
  read or all can be written. Each part of this is needed: `Orphans` has a run from a fresh store for each, which ends
  with a stub left behind unless the process dies on the way.

What turned out not to hold as one would expect:

* Replays are excluded exactly when the TTL is off, or the window is on and TTL >= 2 * window + delay, and no start
  misses a file whose captured_at is still inside the window (`Ledger.NeverReplaysIffSafe`). The shipped defaults meet
  the first part up to a delay of five minutes. A start passes over files it cannot read or decode, so the second part
  is up to the disk (`Replays.ReplayAfterStart`). The receiver itself, not only its books, replays under every policy
  that is not safe (`Replays.ReplayAfterExpiry`).
* A worker id becomes part of a path. The file of "a/b" is in a directory below the state directory, where a start
  does not look, and "./a" has the file of "a" (`Paths.NestedId`, `Paths.DottedId`). Freedom from replays and orphans
  over runs holds for workers whose files are in the state directory itself (`Receivers.Receiver.Listable`) and
  pairwise distinct (`Receivers.Receiver.Separate`), which ids without slashes have (`Paths.PlainIdsAreApart`). Each part is needed: every worker whose file is elsewhere can replay after a
  start at which all reading works (`Replays.ReplayAfterStart`), and whenever two share a file, a post of the second
  makes orphans of the first's stubs (`Orphans.SharedFile`) and lets it replay (`Replays.ReplayOfOverwritten`).
* A reply cut short can end well. The stub's handler takes io.EOF for success, and reading a frame gives io.EOF for a
  close frame and just as well for a connection that ends where the next read gets no byte (`Replies.AnswerAtCut`). So a
  chunked reply that breaks off reaches the client as a whole one (`Replies.BrokenReplyEndsWell`), and a worker
  that cannot reach its backend makes for status 200 with an empty body (`Replies.UnreachableBackend`). Cut
  elsewhere, the handler complains with status 502, or, behind a head, with a text that the client takes for body.
  The client notices exactly when a length was declared and not met (`Replies.LooksWholeIff`).
* The root README.md of the repository, lines 9 and 152, says that request bodies stream through both proxies. A body without a declared
  length is sent chunked, and its chunked form is never completed: the stub ends it with a text message, the
  worker completes it at a close frame (`Uploads.UploadCompletesIff`).
* Service names with surrounding white space do not survive a second parse; `Desired.PlainHttpSurvives` has the
  exact condition, and `PaddedNames.PaddedServiceIsLost` a container for every such name, of which " s" is one
  (`PaddedNames.PaddedNameExists`).
* Nor is such a service served: the blanks around its name get lost in the header that carries it from the stub to the
  worker. A stub's calls are answered from its own service exactly if there are none (`Journeys.RequestReachesContainer`),
  given that there are none around token and container id.
* A router with TLS becomes a TCP router and loses its middlewares (`Desired.TlsHalfSurvives`).
* A changed token is not part of the desired hash, so stubs keep the old one (`HashSkip.TokenChangeGoesUnnoticed`).
* Expiry leaves no stub behind exactly if the lists of the forgotten workers were complete
  (`Stores.OrphansAfterExpiry`). A post while images cannot be inspected empties the list, so that it
  is complete exactly if the worker had no stub (`Orphans.PostThenExpire`).
* Allocating a frame's payload panics on negative lengths and on those above a limit of the platform; `Frames` leaves
  the limit open.

Hypotheses about functions that are parameters: hashes are free of collisions on the values that occur
(`HashSkip.NoHashCollision`, `Desired.NamedApart`), and JSON reads back the messages that occur
(`Tunnel.Carries`). They are named in each theorem that uses them.

## Model

| member | source | states |
|---|---|---|
| `Ledger.NextKeepsInv` | internal/receiver/store.go:58-154 | Posts, expiry, restarts and waiting each keep the invariant: every accepted captured_at is covered by a record at least as new, in memory and on disk, or is outside the window for good; a restart may miss files of the latter kind |
| `Ledger.ExpiryLeavesWindow` | internal/receiver/store.go:139-154 | An expired record only ever covered timestamps that no later window check lets through |
| `Ledger.PassedIsNewer` | internal/receiver/store.go:107-110 | What passes both the window check and the staleness check is newer than everything accepted from that worker |
| `Ledger.RunKeepsInv` | internal/receiver/store.go:58-154 | The invariant holds after every prefix of every run |
| `Ledger.AcceptedTimesIncrease` | internal/receiver/store.go:107-110 | In a safe configuration, over every run with expiry, crashes and restarts that miss at most files out of the window, the captured_at times accepted from a worker strictly increase |
| `Ledger.ReplayWitness` | internal/api/api.go:46-51 | For every unsafe configuration, a run that accepts one (worker, captured_at) twice |
| `Ledger.UnreadWitness` | internal/receiver/store.go:70-83 | For every configuration, a run that accepts one (worker, captured_at) twice because a restart could not read a file |
| `Ledger.ReplayableIff` | internal/receiver/store.go:107-110 | In any state a timestamp can be accepted on the spot if and only if memory holds nothing at least as new and the window is open for it |
| `Ledger.RestartReplaysIff` | internal/receiver/store.go:58-95 | After a restart an accepted timestamp can be replayed if and only if its worker's file was not read and the window is still open for it |
| `Ledger.NeverReplaysIffSafe` | internal/api/api.go:46-51 | No run accepts a (worker, captured_at) twice if and only if the TTL is off, or the window is on and TTL >= 2 * window + delay, and restarts miss no file but those out of the window |
| `Ledger.DefaultsTolerateFiveMinutes` | internal/config/config.go:97-99 | With the default window and TTL no run replays if and only if the delay between the checks is at most five minutes |
| `Receivers.Admitted` | internal/receiver/server.go:80-86 | What is let through carries the signed timestamp as its captured_at and lies in the window |
| `Receivers.UnsetTimeIsStamped` | internal/receiver/server.go:80-86 | A captured_at of year 1 counts as not given and becomes the signed time |
| `Receivers.Receiver.Arrive` | internal/receiver/server.go:55-87 | Exactly an authentic request inside the window, whose captured_at is absent or equals the signed timestamp, joins those waiting for the store |
| `Receivers.Receiver.Process` | internal/receiver/server.go:87-101 | Taking up any waiting request, however late, extends the ledger run by a legal step, acknowledges only what is in memory and on disk and has a running stub unless none is wanted (and always that, if image, list and file can be had), never leaves a stub without a record (if no two workers share a file), keeps the lists complete in a calm world unless the worker is out of memory and the write fails, and in a flawless one acknowledges every acceptable snapshot and settles the worker, in the state that recreating all its stubs would give |
| `Receivers.Receiver.Prune` | internal/receiver/app.go:63-76 | Exactly the workers older than the TTL at the time of the tick are forgotten, as a legal ledger step, keeping orphan-freedom |
| `Receivers.Receiver.Start` | internal/receiver/store.go:58-95 | A new process holds exactly the snapshots of the files that are in the state directory itself and could be read, as a legal ledger step; leaves no stub without a record; has complete lists in a calm world; touches nobody else's containers; in a calm one gives every loaded worker a new stamp, unless none of the stubs it wants could be had; in a flawless world leaves every loaded worker settled and stamped; and then, if hashes do not collide, with the containers that recreating every stub of every loaded worker, in any order, would give |
| `Restarts.StartThenPrune` | internal/receiver/app.go:34-76 | However old the records, when all calls work and no names are disputed, a tick of the pruning loop less than the TTL after a start forgets none of the workers whose files were found, and removes nothing |
| `Rebuilds.StartRefinesRecreate` | internal/receiver/store.go:174-196 | With free names and no hash collisions, a start that skips matching containers ends in the state that removing and recreating all stubs of all loaded workers, one worker after another in any order, would give, up to container ids |
| `Rebuilds.EachRebuilds` | internal/receiver/store.go:174-196 | Recreating the stubs of any workers in any order gives each wanted stub anew and leaves all containers of others |
| `Receivers.Receiver.Run` | internal/receiver/app.go:34-76 | Over any sequence of arrivals, processing in any order, expiry, crashes, starts, outside changes and changes of reliability: every managed container was made from a hashed spec; if no two workers share a file, the history is a run of the ledger, so acknowledged captured_at times increase per worker in a safe configuration unless a request is late or a current file unread, and while calls are calm and all writes of files work, no stub is ever without a record on disk; if moreover all files are in the state directory itself, no file goes unread while all reads work, and calm calls and reads do as well for the stubs |
| `Paths.PlainId` | internal/receiver/store.go:327-333 | The file of an id without slashes is in the state directory itself, under the id |
| `Paths.PlainIdsAreApart` | internal/receiver/store.go:327-333 | No two ids without slashes share a file |
| `Paths.NestedId` | internal/receiver/store.go:66-69 | The file of an id with a slash is one level below, where loading does not look |
| `Paths.DottedId` | internal/receiver/store.go:327-333 | An id with "./" in front has the file of the id without |
| `Orphans.PostThenExpire` | internal/receiver/store.go:121-154 | A post while images cannot be inspected, and its expiry: no stub is left without a record if and only if the worker had none at the time of the post |
| `Orphans.ImageLost` | internal/receiver/store.go:201-204 | From a fresh store: a first post, image inspection failing at the second, expiry, and a stub is left without a record |
| `Orphans.ExpiryFails` | internal/receiver/store.go:254-325 | From a fresh store: if listing, inspecting or removing containers fails when the record expires, a stub is left without a record |
| `Orphans.CreateTears` | internal/receiver/store.go:294-297 | From a fresh store: if creating takes effect but its reply is lost, nobody lists the stub and expiry leaves it behind |
| `Orphans.NeitherReadNorWritten` | internal/receiver/store.go:70-83 | From a fresh store: a start that cannot read the record, a post that cannot be written, expiry, and a stub is left without a record |
| `Orphans.SharedFile` | internal/receiver/store.go:327-333 | From a fresh store, with all calls working: whenever two workers share a file, a post of each leaves the first one's stub without a record |
| `Replays.ReplayAfterStart` | internal/receiver/store.go:66-83 | The code itself acknowledges one request twice if the process starts in between and either can read no file or does not look where the worker's file is |
| `Replays.ReplayOfOverwritten` | internal/receiver/store.go:327-333 | The same with all calls working, if in between another worker posts that shares the file |
| `Replays.ReplayAfterExpiry` | internal/receiver/store.go:139-154 | For every configuration that is not safe, the code itself acknowledges one request twice, the record expiring in between and the second request waiting no longer than the delay allows |
| `Receivers.PostDescribed` | internal/receiver/store.go:111-132 | What Upsert does to memory, disk and clock is a post of the ledger |
| `Receivers.LoadReloads` | internal/receiver/store.go:58-95 | What Load does to memory, disk and clock is a restart of the ledger with the files it did not read |
| `Receivers.OutsideKeeps` | internal/receiver/store.go:254-282 | Changes by others to containers without the managed labels cannot break orphan-freedom |
| `Stores.Store.Upsert` | internal/receiver/store.go:97-137 | A refused or stale snapshot changes nothing; an accepted one, with its hash filled in if it had none, changes the worker's own record only, and on disk the records that share its file, stored as validated and as persisted; if none does, it is a ledger post and orphan-freedom holds at every crash point whatever fails; other containers are untouched; success means that a wanted stub runs or none is wanted, and if image, list and file can be had that much is success; a flawless run succeeds and settles the worker; and it says exactly when the lists stay complete if reconciling cannot start or nothing can be written |
| `Stores.Store.Install` | internal/receiver/store.go:114-136 | The record reaches the disk before Docker is touched, so that, unless others share its file, orphan-freedom holds at each crash point whatever fails; no other worker's record changes in memory, nor in any other file |
| `Stores.Store.RemoveManaged` | internal/receiver/store.go:312-325 | Only listed containers that still belong to the worker go; if seeing and removing work all of them do, and if one of these always fails none does |
| `Stores.Store.Expire` | internal/receiver/store.go:148-150 | Memory, then containers, then the file: orphan-freedom holds at each crash point if the file is the worker's own |
| `Stores.Store.RemoveExpired` | internal/receiver/store.go:139-154 | Exactly the workers older than the TTL are forgotten; only their listed containers are removed and nothing is created; if seeing and removing work and no two workers share a file, orphan-freedom holds at each crash point, and afterwards if and only if the lists of the forgotten workers were complete |
| `Stores.Store.ReconcileAll` | internal/receiver/store.go:174-196 | All loaded workers are reconciled in any order: snapshots are kept, in a calm world every record is stamped anew unless none of the stubs it wants could be had, files written keep up with memory, containers of nobody among them are untouched, orphan-freedom is kept, and in a flawless world with undisputed names every worker ends settled |
| `Stores.Store.RefreshLoaded` | internal/receiver/store.go:177-193 | One round (`Rounded`): a round that failed leaves record and file as they were; any other stamps the record with a time of the round and the list of what runs, in memory and on disk; where image and list can be had, it fails if and only if something is wanted and nothing runs; in a calm world the list covers the worker's containers; in a flawless one the worker ends settled |
| `Stores.Store.Load` | internal/receiver/store.go:58-95 | Files in the state directory itself that can be read become the records, those below it never do, and all keep their snapshots; a start keeps every stub recorded even if it dies half-way or misses files; in a calm world the lists of what was read are complete and the stamps new, as for `ReconcileAll`; and what can be written is written |
| `Stores.Store.ReadFiles` | internal/receiver/store.go:66-93 | Every record comes from a compatible file among those listed; every compatible one that can be read has its worker recorded; only incompatible files are deleted |
| `Stores.OthersRest` | internal/receiver/store.go:174-196 | Settling one worker leaves the others at rest and all names undisputed |
| `Stores.WorkersWantApart` | internal/receiver/store.go:397 | Without digest collisions two workers never want a stub of the same name |
| `Stores.UndisputedIfFree` | internal/receiver/store.go:397 | So names are undisputed if and only if no foreign container has a wanted name |
| `Stores.OrphansAfterExpiry` | internal/receiver/store.go:139-154 | When all calls work and no two workers share a file, expiry leaves no orphan if and only if the lists of the forgotten workers were complete |
| `Stores.RefreshKeeps` | internal/receiver/store.go:125-131 | Orphan-freedom carries over from before a reconcile run to after its record is written |
| `Stores.RefreshLists` | internal/receiver/store.go:125-131 | So do complete lists, if the record lists all containers the run left |
| `Stores.InstalledAlone` | internal/receiver/store.go:114-136 | If no other worker has the file, what the writes of a post did is a ledger post and makes no orphan |
| `Stores.ExpireKeeps` | internal/receiver/store.go:139-154 | Orphan-freedom carries over the expiry of a worker with a complete list, carried through or cut short |
| `Stores.InstallRecorded` | internal/receiver/store.go:111-132 | The two writes of a record, whichever reached the disk, make one ledger post |
| `Stores.ExpiredRecords` | internal/receiver/store.go:139-154 | With files of their own, removing expired records makes a ledger expiry step, also when deleting files fails |
| `Stores.HasSnapshotIssue` | internal/receiver/store.go:633-640 | It finds an issue of scope "snapshot" if and only if there is one |
| `Reconciler.Reconcile` | internal/receiver/store.go:198-252 | Whatever fails, other workers' and unmanaged containers are untouched, the worker's own are old ones or made for a desired spec, and everything reported runs with the desired hash and image; where image and list can be had, it fails if and only if something is wanted and nothing is reported; in a calm world all that is left is reported; in a flawless one exactly the desired set runs, with those that matched untouched; at rest it makes no mutating call |
| `Reconciler.ReconcileTwice` | internal/receiver/store.go:198-252 | From any leftover state a flawless run makes the worker's containers the desired set, and a second run makes no mutating call and reports the same set |
| `Reconciler.SettledIsAtRest` | internal/receiver/store.go:216-220 | After a settling run every desired container passes the test that leaves it alone |
| `Reconciler.EnsureAll` | internal/receiver/store.go:213-241 | The loop over desired stubs, in any order and with any failures, touches only desired names, never a foreign container, and reports exactly what it left fit |
| `Reconciler.EnsureStub` | internal/receiver/store.go:214-240 | One desired stub: kept if it matches, else replaced; in a calm world a failure leaves nothing behind |
| `Reconciler.CreateStub` | internal/receiver/store.go:284-310 | Create, connect, start: success means a running container made for the spec on the network; in a calm world failure leaves none |
| `Reconciler.RemoveExtras` | internal/receiver/store.go:242-247 | Only the worker's containers that are not desired go |
| `Reconciler.StubIsTagged` | internal/receiver/store.go:412-479 | A stub carries its worker, the managed mark and its own hash, whatever labels the routers add |
| `Reconciler.AfterRun` | internal/receiver/store.go:213-247 | The two loops together keep the frame, with any failures |
| `Reconciler.AfterCalmRun` | internal/receiver/store.go:213-247 | In a calm world no container of the worker escapes the reported set |
| `Reconciler.AfterFlawlessRun` | internal/receiver/store.go:213-247 | In a flawless world with free names the worker ends with exactly the desired stubs |
| `HashSkip.SameHashSameContainer` | internal/receiver/store.go:216-220 | A container made by this receiver whose hash, image and state match is what the spec would create |
| `HashSkip.SkipRefinesRecreate` | internal/receiver/store.go:213-247 | A reconcile run that skips matching containers ends in the state that removing and recreating all stubs would give, up to container ids |
| `HashSkip.RunKeepsGenuine` | internal/receiver/store.go:213-247 | With any failures, a run keeps every managed container one that was made from a hashed preimage |
| `HashSkip.TokenChangeGoesUnnoticed` | internal/receiver/store.go:466-479 | After a token change the skip test still passes, and the container left alone equals the wanted one if and only if the token is the same |
| `Desired.NulTerminatedInjective` | internal/util/names.go:44-49 | The NUL-terminated preimage tells lists of NUL-free parts apart |
| `Desired.StubNameSays` | internal/receiver/store.go:397 | A stub is named tc- and the digest of worker, container and service, each followed by a NUL |
| `Desired.StubNameIsDigest` | internal/receiver/store.go:397 | Two stubs share a name if and only if their triples share a digest: sanitising loses nothing |
| `Desired.StubNamesDiffer` | internal/receiver/store.go:382-482 | In a snapshot without duplicate ids and digest collisions, no two positions of the list of stubs have the same name |
| `Desired.SealedLabels` | internal/receiver/store.go:466-479 | Filling in the hash changes the hash label and no other |
| `Desired.PlainHttpSurvives` | internal/receiver/store.go:382-481 | Parsing a stub's labels gives back the plain-HTTP routers of its service (exactly when the service name is trimmed or there are none), that one service at port 18181 with its flags, and the middlewares referred to |
| `Desired.TlsHalfSurvives` | internal/receiver/store.go:430-446 | The TCP routers of a stub are exactly the service's TLS routers, with their entry points, certificate resolver and priority, the rule in its TCP form, and no middlewares, as a reader like that of HTTP routers sees them |
| `Desired.PlainRouterInOneStub` | internal/receiver/store.go:391-446 | A plain-HTTP router is read back from the stub of its own service and from no other |
| `Desired.BuildDesiredStubs` | internal/receiver/store.go:364-485 | Without address or port it fails; else the nested loops and the sort give, in order of names, exactly one spec for each container and each service with routers, of which `Vocabulary.StubSays` and `Handover.StubReads` tell the contents |
| `Vocabulary.StubSays` | internal/receiver/store.go:397-481 | By full names and values: image, ids and names of every stub of an exported container; its own labels; its service's ports and flags; every plain-HTTP and TCP router of the service; and every option of the middlewares they name |
| `Vocabulary.OptionNames` | internal/parse/labels.go:229-310 | Traefik's name of each middleware option, for reading and writing |
| `Vocabulary.OptionValues` | internal/parse/labels.go:229-310 | How each option's label value is read: word for word, trimmed, as a number, as a list, as a switch |
| `Handover.StubReads` | internal/receiver/store.go:404-410 | Searched for by name, the environment of a stub holds the container id, the service name, the token, the listening address, and a target that reads back as the worker's address and port with path /tunnel |
| `Handover.StubNeeds` | internal/config/config.go:131-164 | A stub starts if and only if it has a target, a token, a container and a service; its listening address has a default |
| `Handover.StubFindsItsService` | internal/stub/server.go:347-353 | A stub starts if and only if there is a token, listens on the port its labels name, and by the headers it makes of its environment the worker serves it from the very container and service it was built from, or refuses it if the tokens differ; blanks around the service name, which net/http drops, prevent that |
| `Handover.TunnelRefusals` | internal/worker/proxy.go:83-112 | The worker refuses another token, a missing container or service name, and what the look-up does not find |
| `Journeys.RequestReachesContainer` | internal/worker/proxy.go:78-126 | From labels to address: for every exported container and every service a router uses, the snapshot of the trip has a stub that calls the advertised address and port, is served from that container and service if and only if the service's name has no blanks around it, and the service's URL leads to the port asked for or the only one, at the override or the container's address |
| `Reconciler.ByNameOfSorted` | internal/receiver/store.go:205-212 | With no name used twice, what the reconciler wants does not depend on the order of the specs |
| `PaddedNames.PaddedServiceIsLost` | internal/parse/labels.go:313-331 | For every dot-free service name with surrounding white space there is a container whose routers are not read back from its stub |
| `Desired.RouterNamesByService` | internal/receiver/store.go:383-390 | Grouping router by router gives each service its routers in name order |
| `Desired.StubLabelsLoop` | internal/receiver/store.go:430-465 | The router loop with the middleware loop inside yields the label set whose every key the theorems account for |
| `Stubs.StubGet` | internal/receiver/store.go:412-465 | A plain-HTTP router or middleware key of a stub comes from the one router or middleware its name says, and is there only if that one was added |
| `Stubs.KeyOwner` | internal/receiver/store.go:430-465 | Conversely every such key has an owner among what was added |
| `Stubs.PlainRoutersSurvive` | internal/receiver/store.go:430-456 | parseRouters on a stub gives exactly the plain-HTTP routers of the service, with the service name trimmed |
| `Stubs.PlainRoutersEqualIff` | internal/receiver/store.go:430-456 | They equal the originals if and only if the service name is trimmed or there are none |
| `Stubs.MiddlewaresSurvive` | internal/receiver/store.go:458-464 | parseMiddlewares on a stub gives exactly the middlewares its plain-HTTP routers name, except those that carry nothing |
| `Stubs.ServiceSurvives` | internal/receiver/store.go:422-429 | parseServices on a stub gives one service, with the same PassHostHeader and Sticky and port 18181 |
| `TlsStubs.TlsRoutersSurvive` | internal/receiver/store.go:430-446 | The TCP router keys of a stub, whatever else it holds, are those of the service's TLS routers; each key has the value printed for it, and a reader like that of HTTP routers gets all but the middlewares back |
| `TlsStubs.TcpGet` | internal/receiver/store.go:432-446 | A TCP router key comes from the one TLS router its name says |
| `LabelPrinter.MiddlewareRoundTrip` | internal/receiver/store.go:487-554 | Parsing printed middleware labels gives the middleware back up to empty groups, in any label set with nothing else below its name |
| `LabelPrinter.MiddlewarePrintIsStable` | internal/receiver/store.go:487-554 | Printing, parsing and printing again gives the same labels |
| `LabelPrinter.RouterRoundTrip` | internal/receiver/store.go:447-457 | Parsing the printed labels of a plain-HTTP router gives it back |
| `LabelPrinter.TlsRouterRoundTrip` | internal/receiver/store.go:432-446 | The labels of a TLS router, read back, give all of it but the middlewares, with the rule in its TCP form |
| `LabelPrinter.ShowParse` | internal/receiver/store.go:487-554 | Every value the parser can produce is read back from its printed form |
| `LabelParser.CollectNamesLoop` | internal/parse/labels.go:313-331 | The names come out sorted and each once, in whatever order the labels are walked |
| `LabelParser.ParsedFields` | internal/parse/labels.go:218-311 | A middleware has exactly the fields whose own label is present and readable |
| `LabelParser.ClassifyFieldKey` | internal/parse/labels.go:229-310 | Every field's label is recognised as that field, custom header names with dots included |
| `LabelParser.FieldKeyOfClass` | internal/parse/labels.go:229-310 | And a recognised label is that field's only label |
| `LabelParser.ApplyIsOneMore` | internal/parse/labels.go:224-254 | Taking in one more label has the effect of that label alone |
| `LabelParser.ParseMiddlewareLoop` | internal/parse/labels.go:222-255 | The update loop gives the same middleware for every order of the labels |
| `LabelParser.ParseMiddlewaresLoop` | internal/parse/labels.go:218-258 | So does the loop over all middlewares |
| `Backends.InferPort` | internal/parse/labels.go:409-429 | A port is inferred if and only if Docker's data leave one and only one |
| `Backends.InferPortLoop` | internal/parse/labels.go:409-429 | In whatever order the port maps are walked |
| `Backends.FirstAddressed` | internal/parse/labels.go:453-461 | The first network with an address in the sorted list is the least one that has an address |
| `Backends.PreferredAddressLoop` | internal/parse/labels.go:440-463 | The address does not depend on the order of the network map |
| `Backends.ResolveBackend` | internal/parse/labels.go:355-400 | It finds a backend if and only if the deciding source says enough (`BackendExistsIff`), in whatever order Docker's maps are walked |
| `Backends.BackendExistsIff` | internal/parse/labels.go:355-400 | A backend exists if and only if: an override URL parses; or an override host has a positive port, its own or the service's; or else Docker leaves exactly one port and, on the host network, an address is advertised, or some address of the container is known |
| `Backends.BackendMeans` | internal/parse/labels.go:355-400 | Override URL wins over override host, over host network, over container address; an override URL is the label's, trimmed and parsed; an override host comes with the scheme asked for or http; otherwise the URL read back gives the chosen host and port; and the port is the one asked for or the only one there is |
| `Backends.PortKey` | internal/parse/labels.go:431-438 | Docker's key for a port, with or without a protocol, names that port if it is positive |
| `Backends.AddressKnown` | internal/parse/labels.go:440-463 | An address is found if and only if the container has one, on its own, on the preferred network, or on any network beyond blanks |
| `Export.ExportedIsClosed` | internal/parse/labels.go:48-141 | In every exported spec all references resolve, names are dot-free and agree with their keys, values are in the printer's normal form, and there are a router and a service |
| `Export.LoneRouterIsExported` | internal/parse/labels.go:85-133 | A container that opts in and has one router label and nothing else is exported with a default service, to which that router is sent |
| `Export.CompleteRouter` | internal/parse/labels.go:98-133 | A completed router has a rule, a service that exists and only middlewares that exist, and is otherwise as parsed |
| `Export.ResolveLoop` | internal/parse/labels.go:98-108 | Resolving in any order gives the same services, or fails alike |
| `Export.RouterLoop` | internal/parse/labels.go:110-133 | Completing in any order gives the same routers, or fails alike |
| `Export.Build` | internal/parse/labels.go:48-141 | BuildContainer gives the same outcome for every order in which its maps are walked; the two rows below say which |
| `Vocabulary.ExportedIff` | internal/parse/labels.go:30-141 | By full label names: a container is exported if and only if it opts in and is no stub, has a name and routers, every service has a backend, and every router has a rule, a service to go to and middlewares that exist |
| `Vocabulary.ExportedSays` | internal/parse/labels.go:62-141 | And then its spec says what the labels say: id, image and name; routers and where they go; services with the URL, source and port of the backend found for the port asked for; and every middleware option |
| `Vocabulary.NamesAreMentioned` | internal/parse/labels.go:313-331 | A name is collected if and only if some label is the family with that name, alone or followed by a dot |
| `Resolve.ValidateSnapshot` | internal/receiver/store.go:582-618 | No issue is raised if and only if the snapshot is sound as sent; an issue that refuses it appears if and only if worker id, address or port is missing; the issues are those of the snapshot, then one for each container that is dropped, with the field that is at fault; the cleaned snapshot keeps the usable first containers |
| `Resolve.KeptIsFirst` | internal/receiver/store.go:597-616 | A container that is kept is the first of the whole snapshot with its id |
| `Resolve.ExportedIsKept` | internal/receiver/store.go:597-616 | Exported containers with different non-empty ids pass validation untouched |
| `Resolve.LookupService` | internal/worker/agent.go:264-286 | The search by id and service, then by service alone, finds the first match of each |
| `Resolve.EveryStubResolves` | internal/worker/agent.go:264-286 | For any snapshot, with duplicates or invalid containers too, each stub built from the validated snapshot is looked up, by the id and the service of its spec, in the unvalidated one to its own container and service, never by service name alone; `Handover.StubFindsItsService` says the same of what its container is given |
| `Names.SanitizeNormalises` | internal/util/names.go:10-42 | The result is non-empty runs of letters and digits joined by single dashes; the strings left unchanged are exactly these |
| `Names.StubNameUnchanged` | internal/util/names.go:10-42 | Stub names pass through unchanged |
| `Names.Sanitize` | internal/util/names.go:16-41 | The loop with its builder and flag computes that normal form |
| `Names.AsciiIsSane` | internal/util/names.go:10-42 | The ASCII tables have what the theorems need of letters, digits and case |
| `Names.AsciiLetters` | internal/util/names.go:20-25 | In ASCII exactly letters and digits are kept |
| `Strings.SplitJoin` | internal/parse/labels.go:333-342 | Splitting joined separator-free items gives them back |
| `Strings.JoinSplit` | internal/parse/labels.go:333-342 | And joining what was split gives the string back |
| `Strings.TrimDrops` | internal/parse/labels.go:333-342 | Trimming drops white space at both ends and nothing else |
| `Strings.WhiteSpace` | internal/parse/labels.go:333-342 | What counts as white space |
| `Strings.CsvJoin` | internal/parse/labels.go:333-342 | Clean lists survive being joined with commas and read by csv |
| `Strings.CsvLoop` | internal/parse/labels.go:333-342 | The loop of csv computes the list the theorems speak of |
| `Strings.BoolRoundTrip` | internal/parse/labels.go:344-353 | Printed booleans are read back, whatever the default |
| `Strings.BoolWords` | internal/parse/labels.go:344-353 | Exactly six words each stand for yes and no, whatever their case; anything else is the default |
| `Strings.LowerAt` | internal/parse/labels.go:344-353 | Lower case letter by letter |
| `Strings.IntRoundTrip` | internal/parse/labels.go:199-203 | Printed 64-bit integers are read back |
| `Strings.AtoiMeans` | internal/parse/labels.go:199-203 | A number is read if and only if it is digits with or without a sign, in 64 bits |
| `Strings.ItoaSays` | internal/receiver/store.go:404 | Numbers are written without plus sign, leading zeros or negative zero |
| `Agents.LoopKeepsInv` | internal/worker/agent.go:65-118 | Every reachable state of the trigger machine: a signal that no acknowledged listing covers is held by the slot or by the listing under way |
| `Agents.NoLostWakeup` | internal/worker/agent.go:223-228 | An idle agent with an empty slot has had a snapshot acknowledged whose listing began after the last signal |
| `Agents.Agent.Signal` | internal/worker/agent.go:223-228 | A signal leaves the slot full, full or not before |
| `Agents.Agent.SyncOnce` | internal/worker/agent.go:120-192 | The snapshot is replaced exactly on an acknowledgement, by the one sent, which carries the time of the trip and what `SnapSays` says; a failed list, a lost or bad reply leave it; signals during the attempt stay in the slot |
| `Agents.SnapSays` | internal/worker/agent.go:120-153 | What is sent carries the agent's id, address and port, the time of the trip, version v1, the exported containers, and their hash |
| `Agents.Agent.SyncWithRetry` | internal/worker/agent.go:97-118 | It stops at the first attempt that does not fail, and that one's snapshot is served |
| `Agents.Agent.Run` | internal/worker/agent.go:65-95 | Over all rounds of ticks, events and failures: what is served was acknowledged, and an agent waiting with an empty slot serves the snapshot of a trip after whose listing began no signal came |
| `Agents.Collect` | internal/worker/agent.go:134-149 | The container loop skips failed inspections and unusable containers, and panics where the exporter does |
| `Agents.ComposedIsValid` | internal/worker/agent.go:120-149 | The receiver's validation keeps every container of a snapshot an agent composes from a proper listing, and does not refuse it |
| `Network.NetStepKeepsInv` | internal/worker/agent.go:154-191 | Every step of agent, network and receiver keeps the joint invariant |
| `Network.AgentNeverAhead` | internal/worker/agent.go:188 | Over every run on a lossy, reordering, duplicating network, what the agent serves was sent and accepted, and the receiver's record is at least as new while it has one, and at the same captured_at is the validated form of the same snapshot; after that, nothing as old can be accepted again |
| `Network.HeldWasSent` | internal/worker/agent.go:154-191 | In every configuration, whatever the receiver holds for the worker has the time of something its agent sent |
| `Network.StubsMeetTheAgent` | internal/worker/agent.go:264-286 | As long as the receiver's record is not newer than what the agent serves, every stub the receiver wants is looked up by the agent, and (without blanks around token, id and name) served by the worker on what its environment says, to the very container and service it was built from |
| `Joint.System.Process` | internal/receiver/server.go:87-101 | What the receiver class does with a waiting snapshot, crash included, is a step of the network machine |
| `Joint.System.Prune` | internal/receiver/app.go:63-76 | So is a tick of the pruning loop |
| `Joint.System.Start` | internal/receiver/store.go:58-95 | So is a start that misses at most records out of the window |
| `Joint.System.Arrive` | internal/receiver/server.go:55-87 | So is the arrival of a request, if those in the worker's name were sent by its agent at some time |
| `Joint.System.Send` | internal/worker/agent.go:120-192 | So is the sending of the snapshot an attempt composes, with the time of the trip, the agent's address and its containers |
| `Joint.System.Sync` | internal/worker/agent.go:120-192 | So is what the agent class does at the end of an attempt, acknowledged or not |
| `Joint.System.AgentIsNeverAhead` | internal/worker/agent.go:188 | After any such steps, what the agent object serves is at most as new as the record of its worker in the receiver object's memory and files, at the same captured_at it is the same snapshot, and without a record none so old is accepted again |
| `Joint.System.NewestIsAcceptable` | internal/receiver/store.go:107-110 | The snapshot of a trip later than all that was sent before is never refused as stale |
| `Joint.System.Exchange` | internal/worker/agent.go:120-192 | In a world where all works and while the window is open for it, the snapshot of such a trip is admitted, taken up, acknowledged and served by the agent from then on |
| `Joint.System.StubsMeetTheServed` | internal/worker/agent.go:264-286 | And every stub wanted for a record that is not newer leads the agent object, by its environment too, to the container and service it was built from |
| `Joint.TakeIsStep` | internal/receiver/store.go:97-137 | The records and receipts before and after a post, with its file written or not, are those of a step of the network machine |
| `Frames.FrameRoundTrip` | internal/websocketx/websocketx.go:111-242 | A written frame, masked or not and of any length that can be allocated (a limit of up to 2^63), is read back whatever follows it |
| `WireFormat.FrameOnWire` | internal/websocketx/websocketx.go:164-242 | Every byte of a written frame as section 5.2 of RFC 6455 has it: FIN and opcode, mask bit, the shortest form of the length, the key, and the payload combined with the key bit by bit |
| `WireFormat.HelloExample` | internal/websocketx/websocketx.go:164-242 | The unmasked text message of section 5.7 of RFC 6455 |
| `WireFormat.LongExamples` | internal/websocketx/websocketx.go:164-242 | Its binary messages of 256 bytes and of 64 KiB |
| `WireFormat.CloseExample` | internal/websocketx/websocketx.go:164-242 | An empty close frame |
| `WireFormat.Int64Is` | internal/websocketx/websocketx.go:131-134 | Eight length bytes are taken as a number in two's complement |
| `WireFormat.ChunkExamples` | internal/worker/proxy.go:474-486 | A chunk of 26 bytes and the last chunk, byte by byte |
| `WireFormat.XorBits` | internal/websocketx/websocketx.go:146-150 | Masking combines bytes bit by bit |
| `Frames.PrefixIsShort` | internal/websocketx/websocketx.go:111-152 | A cut-off frame is never taken for another one |
| `Frames.StreamRoundTrip` | internal/websocketx/websocketx.go:111-242 | Reading the stream of any list of written frames gives the list, with nothing left over |
| `Frames.StreamPrefix` | internal/websocketx/websocketx.go:111-242 | Cut anywhere, the stream gives a prefix of the list |
| `Frames.MaskTwice` | internal/websocketx/websocketx.go:146-150 | Unmasking undoes masking |
| `Frames.ValueOfBigEndian` | internal/websocketx/websocketx.go:191-195 | Reading a big-endian number gives it back modulo its width |
| `Frames.Conn.ReadFull` | internal/websocketx/websocketx.go:113-115 | However the stream arrives in pieces, exactly the next n bytes are taken, or none are left; then the error is io.EOF if and only if the connection was closed and this read got no byte |
| `Frames.Conn.ReadFrame` | internal/websocketx/websocketx.go:111-152 | Over any pieces, the next frame of the stream and the rest; at the end io.EOF if and only if the connection was closed between frames or right behind a frame's header, length or mask, io.ErrUnexpectedEOF elsewhere; the panic on lengths that are negative or cannot be allocated |
| `Frames.Conn.Accumulate` | internal/websocketx/websocketx.go:131-134 | The shift loop computes the eight-byte value in 64-bit two's complement |
| `Frames.Conn.Length` | internal/websocketx/websocketx.go:118-135 | The announced length, negative exactly when it does not fit |
| `Frames.Conn.Unmask` | internal/websocketx/websocketx.go:146-150 | The loop computes the masking function |
| `Frames.Conn.WriteFrame` | internal/websocketx/websocketx.go:164-242 | Exactly the encoding of the frame is appended, for both ends and all three length forms |
| `Frames.Conn.WriteLength` | internal/websocketx/websocketx.go:191-195 | The shift loop writes the eight bytes of the length, most significant first |
| `Chunked.ChunkRoundTrip` | internal/worker/proxy.go:474-486 | A chunk is decoded to its payload under section 7.1 of RFC 9112, whatever follows |
| `Chunked.HexRoundTrip` | internal/worker/proxy.go:474-486 | The size line is hexadecimal and reads back as the size |
| `Chunked.ChunkedPump` | internal/worker/proxy.go:327-355 | For any frames the chunked output decodes to the non-empty binary payloads before the first close frame, and is complete, with nothing after the last chunk, if and only if there is one |
| `Chunked.PlainPump` | internal/worker/proxy.go:327-355 | Without chunking exactly the body is forwarded |
| `Chunked.PumpToConn` | internal/worker/proxy.go:327-355 | The loop over frames, arriving in any pieces, writes that output |
| `Uploads.UploadCompletesIff` | internal/worker/proxy.go:152-163 | For any Reads of the client's body and any point at which the connection has got, the backend has a prefix of the body; once request_end has arrived its message is complete if and only if the content length is not negative |
| `Uploads.RequestConservation` | internal/stub/server.go:328-345 | With a declared length the backend has a prefix of the body, all of it once request_end has arrived, and reads the message as complete exactly then |
| `Uploads.SendRequest` | internal/stub/server.go:94-110 | The stub sends request_start with the content length, the body and request_end |
| `Uploads.ForwardRequest` | internal/worker/proxy.go:152-163 | The worker forwards nothing before request_start, no body for length zero, and chunks exactly for a negative length |
| `Uploads.ChunkedUploadNeverCompletes` | internal/worker/proxy.go:327-355 | With a negative content length, what the backend has is well formed, holds a prefix of the body, all of it in the end, and is never complete |
| `Tunnel.PumpBody` | internal/stub/server.go:328-345 | The read loop sends one frame per non-empty Read, in order, and request_end exactly at EOF, data that comes with EOF included |
| `Tunnel.CopyResponse` | internal/worker/proxy.go:357-373 | The same loop for response bodies |
| `Tunnel.SendReply` | internal/worker/proxy.go:165-198 | Interim heads, the final head, the body and the close frame go out in this order, and the close frame only after a body that ended well |
| `Replies.Handle` | internal/stub/server.go:71-85 | The client gets exactly the answer that the bytes of the tunnel and its end determine, in whatever pieces they arrive; a panic gives none |
| `Replies.ReceiveReply` | internal/stub/server.go:112-145 | The response loop passes heads on in order and then the body up to the close frame, and returns what stopped it |
| `Replies.CopyBody` | internal/stub/server.go:284-305 | Exactly the body bytes are written, as long as the writer takes them, and the error returned is that of the read that failed, io.EOF for a close frame |
| `Replies.Writer.CopyHeaders` | internal/stub/server.go:371-383 | The header map ends as the passed headers and nothing of what it held before |
| `Replies.HandledPart` | internal/stub/server.go:112-145 | Of any part of a reply's frames the handler passes on just the heads and body bytes in it, all of them once it has the close frame |
| `Replies.AnswerAtCut` | internal/stub/server.go:71-85 | At any cut of the tunnel, closed or reset, and even if the backend's body breaks off: the handler is silent if and only if it read the close frame or the connection was closed where the next read got no byte; and exactly what the client gets when it read the close frame, when it is silent otherwise, and when it complains |
| `Replies.LooksWholeIff` | internal/stub/server.go:284-305 | A reply cut behind its final head looks whole to the client if and only if no length is declared, the body so far has it, or the text of a complaint fills it up; with a declared length a silent handler deceives nobody |
| `Replies.BrokenReplyEndsWell` | internal/worker/proxy.go:165-198 | Every reply without declared length whose body breaks off at the backend reaches the client as a whole answer with the shorter body |
| `Replies.UnreachableBackend` | internal/worker/proxy.go:144-147 | When the worker closes the tunnel because it cannot reach the backend, the client gets status 200 and an empty body |
| `Replies.ResponseConservation` | internal/worker/proxy.go:165-198 | For any complete reply without status 101, any pieces in which the tunnel's bytes arrive, and any end of the tunnel behind them: the client gets the same interim statuses in order, the final one, each with its own headers only, exactly the body, and a good end |
| `Replies.HeadsPassOn` | internal/stub/server.go:371-383 | Each head keeps its status and exactly those fields that have a value and do not concern one connection only |
| `Replies.LengthDeclared` | internal/stub/server.go:284-305 | A head declares the length its Content-Length field says |
| `Tunnel.CutWire` | internal/tunnel/tunnel.go:92-118 | What has been read of a cut-off tunnel is a prefix of the messages sent |

## Left out

* The Docker HTTP client, sockets, TLS, routing of requests, logging, shutdown, flags and the environment. Docker is a map
  from names to containers behind calls that may fail.
* SHA-256, SHA-1, HMAC and JSON are functions. The checks of token, size and signature in ValidateRequest are
  one flag, `authentic`; its window check is modelled.
* Header values that are not valid UTF-8, which JSON rewrites; `Tunnel.Carries` excludes them. Header names
  are taken as canonical already, as Go's HTTP reader leaves them.
* AtomicWriteFile: writing a file leaves the old or the new content, and directories that a worker id names are made when
  needed. Links and folding of case in the file system are not modelled, nor files that others put there.
* Parsing and printing URLs: `Backends.Urls` has these as functions. EqualFold, ToLower and white space follow ASCII where labels and headers are concerned;
  `Names.Tables` leaves letters, digits and case open.
* Two stubs of one name, which digest collisions would need: the code sorts by name without keeping the order of equal
  names, and the model's reconciler keeps the last one built.
* Timestamps, resolution notes, copied labels and error texts of exported specs. A Go struct of optional middleware settings is a map
  from its members to values; nil and empty lists are one value.
* The mutex of the store: requests wait in `Receivers.Receiver.inbox` and are taken up one at a time, in any order and
  after any wait.
* Docker contexts with deadlines: a call that runs out of time is a call that fails.
* The agent's back-off durations, its status fields other than success, and the event stream: signals are events and ticks alike. Once
  its context is cancelled an agent counts as stopped.
* What net/http does to answers beyond heads, bodies and declared lengths: the Date, Content-Type and Transfer-Encoding
  headers, HEAD requests, and clients that go away. A tunnel that cannot be dialled, and the health paths of the
  stub. `http.Error` keeps a Content-Length that is already set, as up to Go 1.22.
* The WebSocket handshake, but for the three fields that name container, service and token (control characters in them,
  which net/http refuses, are left out). The relay after an upgrade, and status 101. Frames never arrive fragmented, as the writer sets FIN
  always; the reader ignores FIN, control frames other than close, and close payloads, as the code does.
* Running out of memory on a frame whose announced length is below the allocation limit.
* The reader of `traefik.tcp.*` labels is Traefik itself; `LabelParser.RouterAt` stands in for it.
* Chunk extensions and trailers in the decoder of section 7.1 of RFC 9112; the worker writes none.
* The request head, path joining and request header filters of the proxy; the status server; internal/render,
  internal/testapp and internal/runtimeinfo, which would add easy members.
