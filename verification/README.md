# DarkAngel: verified models of the chat pipeline, the files and the ledger

Dafny models of the parts of DarkAngel where an error would be hard to see in a test: code that is
interrupted, interleaved, cut into arbitrary pieces, or run over data that may be damaged. Each
model keeps the branches, the error cases and the constants of the code, and what the code promises
is proved of it for all inputs and all runs.

Verify everything with `dafny verify dfyconfig.toml` (Dafny 4.11).

## What is modelled

**The streamed reply, from the model's deltas to the browser.**

- `ThinkSplitter`, `ThinkLaws`, `WholeAnswer`: the incremental reader of `<think>` blocks as a class,
  against a specification on the whole text; what the cutting may change, and how the streamed answer
  compares with the one read in one piece.
- `EventStream`, `EventWire`, `EventFrames`: the browser's parser as a class with a buffer, over arbitrary
  network chunks; the server's printer; the agreement with the WHATWG HTML Standard; frames of any lines
  with either line end.
- `ReplyRun`, `RunRegistry`: one run as a value with its history, and the registry as a class with
  queues, each step being the code between two awaits.
- `ChatWorld`, `ChatSafety`, `ChatRequests`, `ChatRuns`, `ChatStops`: the service as one step system
  (requests, runs, database threads that may outlive a cancellation, subscribers, stops, restarts), its
  invariant, and what follows for every run. `ChatEnds` says that the history and the verdict of a reply are
  what its stream brought and how it ended; `ChatSteps` says field by field what each step does and when it
  may happen; `ChatRegistry` relates the registry class to the step system.
- `ChatView`, `ChatStore`, `ChatSession`, `PageSteps`, `EndToEnd`: the page, its controllers and sequence numbers,
  late answers in any order, and the theorem from the registry, through the printed stream in any
  chunks, to what is shown.

**Files, folders and quota.**

- `FolderTree`, `FolderDrive`, `FolderPath`: the two recursive queries on any table, the routes as a
  class, every serial run, racing moves, and the breadcrumb.
- `FileTable`, `FileWorld`, `FileRuns`, `FileSteps`, `FileRaces`: the files table and the bucket under any
  interleaving of uploads, version uploads, renames, moves, deletions and sweeps.
- `Backfill`, `BackfillSettles`, `BackfillScope`: the migration with a crash after any write, and which
  objects it moves, skips and leaves alone.

**The ledger.**

- `InvoiceTable`, `InvoiceRuns`: invoices under reading jobs, people and restarts, statement by
  statement.
- `Decimals`, `Costs`: decimal arithmetic with 28 digits and the cost series.
- `Money`: reading printed amounts back.
- `HouseholdTable`, `HouseholdRuns`, `HouseholdSteps`: membership under interleaved checks and writes.

What a step does is stated twice: by the functions that the step systems run on, and field by field in the
methods' contracts and the modules named `...Steps`.

`Text` holds the string functions that several of them use.

The repository classes and the routes are tied to the step systems by methods that perform one action on
both sides (`ChatRegistry.Perform`, `FolderDrive.Serve`, `FileRuns.Serve`, `InvoiceRuns.Serve`,
`HouseholdRuns.Serve`).

## What the proofs found

These are places where a stronger statement is false of the code. The code is modelled as it is; for
each there is the exact condition and a concrete input.

- White space that follows `</think>` in a later delta is shown (`ThinkLaws.StripsAllIff`,
  `ThinkLaws.LateSpaceExample`).
- A stream that breaks off loses what the splitter holds back, at most seven characters: all of a text
  that may still become the opening tag, and the end of an unclosed thought. It loses nothing if and only
  if the text is past its tags, empty, or exactly the opening tag (`ThinkLaws.BrokenStreamLosesHeld`,
  `ThinkLaws.BrokenStreamExample`).
- The streamed and the whole reading of one answer differ exactly as `WholeAnswer.StreamMatchesComplete`
  says: the whole reading removes closed blocks anywhere and keeps an unclosed one
  (`WholeAnswer.UnclosedDiffers`).
- `resync` reads the sequence number only when it resumes. When a request fails before its first event
  and another action is taken before it resumes, it finds the new number, and the conversation that was
  left can replace the one that was opened (`ChatSession.GapIff`, `ChatSession.GapExample`). Between the
  end of `follow` and the resumption of its caller only microtasks run, while `open`, `send` and `leave`
  are called from event handlers, mount and unmount hooks and a route watcher
  (`frontend/src/views/ChatView.vue:34`, `:40`, `:75`, `:80`): no caller in the repository is known to
  act in that window. Sessions without such an action are without the gap, and all of them is fenced
  (`ChatSession.PromptSessionIsFenced`). What holds in every session, the gap included, is stated by
  `ChatSession.EverySessionIsSane` and `ChatSession.EarlierFetchIsSilent`.
- The upward test and the downward closure agree while no live folder is under a trashed one, which the
  routes keep in serial runs. A move that lands keeps the table acyclic if and only if the test would
  still let it through at that moment (`FolderTree.LandingMoveIff`). Two moves that both check before
  either writes leave a cycle if and only if each new parent lies below the other folder
  (`FolderTree.RacingMovesIff`, `FolderDrive.BothCheckedThenWritten`, `FolderDrive.OppositeMovesRace`).
  Both queries end on it all the same.
- A run stays within the quota at every moment if and only if each version whose check and landing are two
  steps still fits when it lands (`FileRuns.QuotaHoldsIff`); two racing uploads of versions break it
  (`FileRaces.RacingVersionsExceedQuota`).
- A sweep that selects and deletes in two transactions deletes an upload that was finished in between
  (`FileRuns.ReadyStays`, `FileRuns.SplitSweepLosesUpload`).
- `set_status` is unconditional. A sweep of a starting process that finds a job of another process which
  has yet to start on its invoice allows a later validation to be set back to extracting
  (`InvoiceRuns.UnclearSweepUndoes`); without such a job, and so in every run of one process at a time,
  it cannot happen (`InvoiceRuns.StaysInOneProcess`).
- A whole number printed with exactly one comma or dot group is read as a thousandth of itself
  (`Money.WholeNumberIff`), and `_bounded` checks the limit before it rounds, so the column can hold the
  limit: exactly for amounts within half a unit of it (`Money.BoundedMayReachLimit`), such as
  9999999999.995 (`Money.LimitExample`).

## Model

| member | source | states |
|---|---|---|
| ThinkSplitting.ThinkSplitter.Feed | backend/app/chat/llm.py:46-74 | takes one delta in any state; the buffer and state afterwards account for every character fed so far, and what was emitted before stays a prefix of what is emitted now |
| ThinkSplitting.ThinkSplitter.Scan | backend/app/chat/llm.py:57-70 | the search for the closing tag over held tail plus new text finds it exactly when it is in the whole thought |
| ThinkSplitting.ThinkSplitter.Flush | backend/app/chat/llm.py:76-80 | after it, all emitted text is exactly what the whole-text specification shows of the deltas fed |
| ThinkLaws.Stream | backend/app/chat/llm.py:223-236 | the events of a stream, whole or broken off: exactly the direct reasoning and the splitter's pieces, in order; all reasoning is that of the events before the end and then what the flush adds |
| ThinkLaws.WholeStreamIsShown | backend/app/chat/llm.py:223-236 | a stream that comes to its end shows exactly the specified content, and exactly the specified reasoning woven with the direct one |
| ThinkLaws.AtMostSeven | backend/app/chat/llm.py:50-51 | what is held back of any text received so far is at most seven characters |
| ThinkLaws.BrokenStreamLosesHeld | backend/app/chat/llm.py:223-236 | a stream that breaks off shows exactly all but the held text, taken off the thought inside one and off the content elsewhere; it loses nothing if and only if the text is past its tags, empty, or exactly the opening tag |
| ThinkLaws.BrokenStreamExample | backend/app/chat/llm.py:223-236 | the concrete broken-off streams that lose what was held |
| ThinkLaws.ShownIsAnswer | backend/app/chat/llm.py:39-80 | for every cutting: reasoning is the text between a leading tag and the first closing one, content is the rest less some leading white space, and exactly the text without a leading tag |
| ThinkLaws.CutsAgree | backend/app/chat/llm.py:39-80 | two cuttings of one text show the same reasoning, and content that differs in leading white space only |
| ThinkLaws.StripsAllIff | backend/app/chat/llm.py:62 | all leading white space of the answer is removed if and only if the delta that ended the closing tag also brought a visible character, or no space followed it |
| ThinkLaws.LateSpaceIsShown | backend/app/chat/llm.py:62 | one text, two cuttings: white space after the delta that ends the tag is shown |
| ThinkLaws.LateSpaceExample | backend/app/chat/llm.py:62 | the concrete deltas whose leading white space is shown |
| WholeAnswer.StreamMatchesComplete | backend/app/chat/llm.py:238-259 | the streamed content, stripped, equals the whole-text reading if and only if a leading tag, when there is one, is closed and the answer behind it has no closed block |
| WholeAnswer.CompleteOfAnswer | backend/app/chat/llm.py:259 | a closed leading block disappears whole from the whole-text reading |
| WholeAnswer.UnclosedDiffers | backend/app/chat/llm.py:50-70 | a text with an unclosed leading tag: the streamed content is empty, and the whole reading is not |
| EventStream.Reader.Read | frontend/src/api/client.ts:86-100 | one chunk: everything yielded so far is what splitting all received text on blank lines yields, less the unfinished last frame until the end |
| EventStream.ReadFrame | frontend/src/api/client.ts:91-98 | one frame: the last event name, and its data lines joined; nothing without data |
| EventStream.ReadResponse | frontend/src/api/client.ts:83-101 | for every cutting of a stream into chunks the events are those of the whole stream |
| EventStream.SplitResumes | frontend/src/api/client.ts:87-90 | splitting the kept last piece together with new text gives the pieces of the whole, a separator cut in two included |
| EventWire.ClientReadsBack | backend/app/chat/runs.py:39-40 | parsing any concatenation of printed events gives back exactly that list |
| EventWire.Receive | frontend/src/api/client.ts:83-101 | round trip: printed events cut into arbitrary chunks are received as they were sent |
| EventWire.ClientFollowsStandard | backend/app/chat/runs.py:39-40 | on what the server prints, the client and the event-stream interpretation of section 9.2.6 of the WHATWG HTML Standard yield the same events |
| EventFrames.FramesAreRead | frontend/src/api/client.ts:86-99 | any frames of any non-empty lines, each line ended with or without a carriage return, are read frame by frame and line by line |
| EventFrames.LineEndsDoNotMatter | frontend/src/api/client.ts:91-98 | the event of a frame depends on its lines and not on how they end |
| EventFrames.DataLinesReadBack | frontend/src/api/client.ts:98 | several data lines stand one below the other |
| RunRegistry.LiveRun.Publish | backend/app/chat/runs.py:55-57 | every registered queue gets the event at its end and nothing else changes |
| RunRegistry.Runs.Reserve | backend/app/chat/runs.py:74-77 | succeeds exactly when nothing is there, and then marks the reservation |
| RunRegistry.Runs.Subscribe | backend/app/chat/runs.py:107-130 | registers a fresh queue at once, with the texts of this moment as first event if asked; none for another owner |
| RunRegistry.Runs.Stop | backend/app/chat/runs.py:132-140 | marks the run stopped, cancels only a stream, and answers whether there was a run |
| RunRegistry.Runs.TakeDelta | backend/app/chat/runs.py:227-230 | a delta goes to its own text and to every queue registered, then a flush may start |
| RunRegistry.Runs.FinishTask | backend/app/chat/runs.py:204-207 | `done` reaches every queue and the entry is gone in the same step |
| ChatRegistry.Perform | backend/app/chat/runs.py:60-244 | the registry class and the step system agree: after any action its entries are those of the world |
| ChatRegistry.HearTask | backend/app/chat/runs.py:55-57 | a step of a run leaves every subscriber's queue, of this run or not, with what the step system puts there |
| ChatRegistry.HearFinish | backend/app/chat/runs.py:204-207 | the end of a run puts `done` into the queues of its subscribers and into no other |
| ChatRegistry.HearOwn | backend/app/api/routes/chat.py:226-240 | the request that starts a run registers its queue in the same step, before anything is published |
| ChatRegistry.HearFromNow | backend/app/chat/runs.py:107-130 | a later subscriber gets the texts of this moment as its first event, and its queue from then on |
| ChatRegistry.HearNoMore | backend/app/chat/runs.py:127-128 | a client that leaves takes its own queue away, whether the run is still there or not |
| ChatRequests.GiveUpInv | backend/app/api/routes/chat.py:236-238 | a failing request frees its own reservation and no other request loses its hold |
| ChatRequests.RestartInv | backend/app/main.py:16-29 | a restart keeps the invariant, whether its sweep succeeds or fails and is only logged; after one that succeeds no reply is in progress |
| ChatSteps.RestartIsExact | backend/app/repositories/chat.py:146-154 | a restart leaves nothing running; its sweep marks exactly what was in progress as stopped, and changes no text |
| ChatRuns.ExecInv | backend/app/chat/runs.py:60-244 | every run of the service from the start keeps the invariant |
| ChatRuns.SavedReplyStands | backend/app/chat/runs.py:189-206 | once the final save succeeded, the stored content, reasoning, status and error equal those of `done` in every interleaving, late flushes included |
| ChatRuns.EverySubscriberGetsDone | backend/app/chat/runs.py:107-130 | a queue still registered at the end of a run got every event from its subscription on, the last one being the one `done`; its first event, when there is one, held exactly the texts published before |
| ChatRuns.DoneComesLast | backend/app/chat/runs.py:204-207 | in all that an ended run published, `done` is the last event and no other is a `done` |
| ChatRuns.EndedAsItWasStopped | backend/app/chat/runs.py:161-173 | a run ends as stopped if and only if it was so marked, and has an error text if and only if it ends as an error |
| ChatEnds.EndsAsItHappened | backend/app/chat/runs.py:161-177 | in every run of the service an ended reply has the verdict error with a reason if and only if its stream broke with that reason, complete if and only if its stream came to its end, and stopped if and only if its task was halted |
| ChatEnds.HistoryIsWhatCame | backend/app/chat/runs.py:215-230 | at any moment a reply has published exactly the progress, the deltas and the error that its stream brought, its texts are what the deltas add up to, and at its end `done` comes behind with these texts and the verdict |
| ChatEnds.ErrorIsPublished | backend/app/chat/runs.py:166-177 | an error text is in the history if and only if the stream broke with it and it is not empty |
| ChatSteps.TaskGoesTo | backend/app/chat/runs.py:149-244 | where a task is after each of its steps, which texts it has then, and what it published |
| ChatSteps.TaskAwaits | backend/app/chat/runs.py:189-243 | which database thread is awaited then, with which columns, and which flush is left to itself |
| ChatSteps.FlushStoresTexts | backend/app/chat/runs.py:230-243 | a flush that commits stores exactly the texts of the run, and leaves status and error alone |
| ChatSteps.SaveStoresOutcome | backend/app/chat/runs.py:189-203 | the final save stores the texts, the status and the error that the run ends with |
| ChatSteps.ThreadStores | backend/app/repositories/chat.py:110-116 | a thread that commits writes these columns of its own row, if it is there; one that fails writes nothing |
| ChatSteps.RequestWrites | backend/app/repositories/chat.py:79-144 | what the requests write, column by column: rows deleted, a question added or edited, a blank reply added |
| ChatSteps.RequestsAfter | backend/app/api/routes/chat.py:202-240 | a request holds a free conversation or is refused, and ends by giving up or starting the run |
| ChatSteps.RegistryAfter | backend/app/chat/runs.py:74-140 | a stop by the owner marks a run and cancels a stream, the end of a run takes it out, a restart all of them; no other step but its own changes what is registered |
| ChatSteps.RequestsRegister | backend/app/api/routes/chat.py:202-240 | what a request registers: its reservation, and a new run without a text in place of it |
| ChatSteps.SubscribersAfter | backend/app/chat/runs.py:107-130 | what a subscriber has after other steps than those of its run |
| ChatSafety.TaskDelivers | backend/app/chat/runs.py:55-57 | a step of a run puts what it publishes into the queues of its registered subscribers, and into no other |
| ChatStops.StoppedIffStoppedInTime | backend/app/chat/runs.py:132-173 | in every run of the service a reply ends as stopped if and only if its owner stopped it, in this conversation, before its save began |
| ChatRuns.SavingIsFinal | backend/app/chat/runs.py:189-207 | a saving run keeps texts, status and error until it publishes them and is gone |
| ChatRuns.Untouched | backend/app/chat/runs.py:60-62 | no step of another request, run or subscriber changes a run |
| ChatRuns.StoppedGoesOn | backend/app/chat/runs.py:160-207 | a stopped run always has a next step of its own |
| ChatRuns.StopIsBounded | backend/app/chat/runs.py:160-207 | every such step brings its end nearer, at most four steps away |
| ChatRuns.OneHolder | backend/app/chat/runs.py:74-77 | while a request holds a conversation or a run lives there, no other request gets it |
| ChatRuns.HoldIsKept | backend/app/api/routes/chat.py:202-240 | a hold ends only by its own request starting, giving up, or a restart |
| ChatView.ShowAllTracks | frontend/src/stores/chat.ts:80-122 | following the published events from any moment keeps the page exact after each of them |
| ChatView.StartTracks | frontend/src/stores/chat.ts:82-101 | `start` keeps the messages that are shown of this conversation, puts the user message behind them and an empty reply last; of another conversation it keeps none |
| ChatView.LastMessageAfter | frontend/src/stores/chat.ts:102-132 | a snapshot, a delta or an error goes into the last message alone, if it is an assistant's: which of its fields it changes, and to what |
| ChatView.OtherEvents | frontend/src/stores/chat.ts:110-146 | progress beside the conversation; `done` in the place of the first message of its id, or behind the others |
| ChatStore.Page.OpenStarts | frontend/src/stores/chat.ts:192-200 | the synchronous part of opening a conversation, or none |
| ChatStore.Page.Apply | frontend/src/stores/chat.ts:80-146 | the page after one event |
| ChatStore.Page.FetchLands | frontend/src/stores/chat.ts:202-209 | a fetched conversation is shown only under its own sequence number, and may be followed on |
| ChatStore.Page.FollowOne | frontend/src/stores/chat.ts:152-156 | an event of a superseded stream changes nothing; any other is applied and counted |
| ChatStore.Page.FollowEnds | frontend/src/stores/chat.ts:157-165 | only the live stream lets go of the controller and may report its error |
| ChatStore.Page.SendStarts | frontend/src/stores/chat.ts:225-231 | sending trims the page from the replaced message on |
| ChatStore.Page.RegenerateStarts | frontend/src/stores/chat.ts:237-241 | regenerating drops a last assistant message, and does nothing on a page without a conversation |
| ChatSession.SessionFenced | frontend/src/stores/chat.ts:149-223 | in every session without the gap, whatever an earlier action began changes nothing on the page, fetches begun after the later action included |
| ChatSession.EverySessionIsSane | frontend/src/stores/chat.ts:149-166 | in every session, the gap included: streaming implies a live controller that is not aborted, and no event and no end of an earlier stream changes the page |
| ChatSession.EarlierFetchIsSilent | frontend/src/stores/chat.ts:192-209 | in every session: a fetch that was under way when the user acted changes nothing, whenever it lands or fails |
| ChatSession.PromptSessionIsFenced | frontend/src/stores/chat.ts:213-216 | every session in which no user action falls between the end of `follow` and the resumption of its caller is without the gap, so all of it is fenced |
| ChatSession.StaleIsSilent | frontend/src/stores/chat.ts:152-165 | in a fenced session a step of an earlier action leaves the page unchanged |
| ChatSession.GapIff | frontend/src/stores/chat.ts:214-216 | a task of an earlier action that resumes can still replace the shown conversation if and only if it finds the guard open: a reply to an open conversation whose stream ended before any event, its controller not aborted, and no controller live |
| ChatSession.GapExample | frontend/src/stores/chat.ts:213-223 | the concrete steps, with an action between the end of `follow` and its caller, that end on the conversation that was left; no caller in the repository is known to act there, as only microtasks run in between |
| PageSteps.OpenDoes | frontend/src/stores/chat.ts:192-200 | opening, field by field: what is followed is aborted, the numbers grow, and a fetch is awaited |
| PageSteps.RequestDoes | frontend/src/stores/chat.ts:225-243 | sending and regenerating follow a new stream with a new controller, for the conversation that is shown |
| PageSteps.RequestTrims | frontend/src/stores/chat.ts:225-243 | which messages they leave of it |
| PageSteps.StreamDoes | frontend/src/stores/chat.ts:149-167 | an event or the end of a stream, of the one that is followed and of another |
| PageSteps.ResumeDoes | frontend/src/stores/chat.ts:180-216 | when a conversation is fetched again behind `follow`, and under which number |
| PageSteps.LandingDoes | frontend/src/stores/chat.ts:202-209 | what a fetched conversation does to the page |
| PageSteps.FailureDoes | frontend/src/stores/chat.ts:206-221 | when a failed fetch is reported |
| EndToEnd.SubscriberHears | backend/app/api/routes/chat.py:249-256 | in every run of the service a subscriber hears the history of its run from its subscription on |
| EndToEnd.EveryPageFollows | backend/app/chat/runs.py:107-130 | for every run of the service, every subscriber and every number of events it has read: the page shows exactly the texts of the server as of that event, and with `done` exactly the published message |
| EndToEnd.EveryChunkIsFollowed | backend/app/chat/runs.py:107-130 | for every run of the service, every subscriber, every cutting of its printed stream and any first chunks of it: the events read are the first ones of its stream, the page that follows them is exact, and all chunks give all events |
| EndToEnd.FollowSubscriber | frontend/src/stores/chat.ts:149-156 | the live page after any first chunks shows exactly the events that they hold whole |
| EndToEnd.ReadSoFar | frontend/src/api/client.ts:86-100 | at any moment the client has read a prefix of what was sent |
| EndToEnd.FollowResponse | frontend/src/stores/chat.ts:149-167 | a complete response in any chunks: the page shows the whole published stream, then lets go of it |
| FolderTree.Ancestors | backend/app/repositories/folders.py:62-71 | the recursive query ends on every table, cyclic ones included, closed under parents of the owner |
| FolderTree.Below | backend/app/repositories/folders.py:77-94 | the recursive query ends on every table, closed under live children of the owner |
| FolderTree.CycleTestExact | backend/app/repositories/folders.py:58-73 | on any table: true if and only if climbing from the new parent reaches the folder |
| FolderTree.SubtreeExact | backend/app/repositories/folders.py:75-94 | on any table: exactly the live folders from which the root is reached through live ones |
| FolderTree.SubtreeIsRefused | backend/app/repositories/folders.py:58-94 | on any table the downward closure is contained in what the upward test refuses |
| FolderTree.UpwardAgreesWithDownward | backend/app/repositories/folders.py:58-94 | for live folders, when no live one is under a trashed one, the two are the same |
| FolderTree.LandingMoveIff | backend/app/api/routes/folders.py:83-90 | a move that lands keeps the table acyclic if and only if the test, at that moment, lets it through |
| FolderTree.RacingMovesIff | backend/app/api/routes/folders.py:83-90 | two moves that were both let through on one table leave it acyclic if and only if not each of them goes below the other folder |
| FolderDrive.FolderRoutes.CreateFolder | backend/app/api/routes/folders.py:55-69 | creation under a live folder or at the root, refused for a missing parent or a taken name |
| FolderDrive.FolderRoutes.UpdateFolder | backend/app/api/routes/folders.py:72-103 | rename and move with every refusal, in the order of the route |
| FolderDrive.FolderRoutes.DeleteFolder | backend/app/api/routes/folders.py:106-134 | deletion, or the refusal with the counts |
| FolderDrive.FolderRoutes.Commit | backend/app/repositories/folders.py:51-56 | the unique index refuses the row or all of it is written |
| FolderDrive.UpdateTouchesOneRow | backend/app/api/routes/folders.py:77-96 | a refused update changes nothing; a granted one changes name and parent of this row as asked, which then clashes with no live sibling |
| FolderDrive.CreateIsExact | backend/app/api/routes/folders.py:55-69 | a creation is refused if and only if the parent is no live folder of the owner, or a live sibling has the name up to case; otherwise the row is there as asked |
| FolderDrive.UpdateRefusals | backend/app/api/routes/folders.py:72-103 | exactly when a change is refused for a missing folder or parent, for a parent below the folder, or for the name of a live sibling |
| FolderDrive.DeleteIsExact | backend/app/repositories/folders.py:111-122 | a recursive delete stamps exactly the folders that reach the root through live ones and their live ready files, and reports the counts that the refusal announced |
| FolderDrive.CountsAreWhatIsStamped | backend/app/repositories/folders.py:105-109 | the two counts are the numbers of other folders and of files that change |
| FolderDrive.BatchCanBeRestored | backend/app/repositories/folders.py:111-116 | with a new stamp, exactly the batch carries it, and taking it off restores the rows |
| FolderDrive.NothingLiveIsLeftBelow | backend/app/repositories/folders.py:111-122 | on any table no live folder of the owner is left directly under the trashed ones |
| FolderDrive.EveryRunIsSound | backend/app/api/routes/folders.py:83-94 | in every serial run: no cycles, no live folder under a missing, foreign or trashed one, live siblings with different names |
| FolderDrive.RefusedExactlyBelow | backend/app/api/routes/folders.py:86-89 | after any such run a move is refused as a cycle exactly for the folders that a deletion would trash |
| FolderDrive.BothCheckedThenWritten | backend/app/api/routes/folders.py:83-94 | two updates that were both granted on one sound table and then written leave a cycle if and only if each new parent is in the subtree of the other folder |
| FolderDrive.ServeAll | backend/app/api/routes/folders.py:55-134 | the routes, called in any order, leave what the serial runs say, and a sound table |
| FolderDrive.OppositeMovesRace | backend/app/repositories/folders.py:86-88 | the concrete pair of opposite moves that both check before either writes |
| FolderPath.PathOf | frontend/src/stores/files.ts:52-63 | ends on every list; the path links child to parent without repeats, ends at the id, and stops only at an unknown parent or at its own start |
| FolderPath.OnlyOnePath | frontend/src/stores/files.ts:48-63 | these conditions determine the path |
| FolderPath.PathIsTheWholeClimb | frontend/src/stores/files.ts:48-63 | on a listing of a sound table it is the whole climb up to a folder without a parent, and empty only for an id that is no live folder |
| FileTable.FileRepository.Reserve | backend/app/repositories/files.py:133-170 | the row is there if and only if the owner stays within the quota with it |
| FileTable.FileRepository.Finalize | backend/app/repositories/files.py:172-186 | version 1 of the reserved size and the ready mark, unless the row is gone or another live ready file of the owner has its folder and name up to case; nothing else changes |
| FileTable.FileRepository.Update | backend/app/repositories/files.py:228-238 | a rename or move is written, or refused by the unique index |
| FileTable.FileRepository.AddVersion | backend/app/repositories/files.py:188-218 | the next version number, the new size and the current version, unless the row is gone |
| FileTable.FileRepository.Abandon | backend/app/repositories/files.py:220-222 | the row is gone and no other is touched |
| FileTable.FileRepository.SweepPending | backend/app/repositories/files.py:250-267 | a row is gone afterwards if and only if it was there, not ready and older than the cutoff; exactly these keys are returned, and every other row is as it was |
| FileWorld.PutKeeps | backend/app/api/routes/files.py:232-235 | a put keeps every stored version and its own bytes under the id it returns |
| FileRuns.ReadyIsStored | backend/app/repositories/files.py:172-218 | in every interleaving a ready row has its object; versions are 1 to n, the current one is n with the row size, and each is still kept with its size |
| FileRuns.ReadyStays | backend/app/repositories/files.py:250-267 | a step removes a ready row if and only if it deletes by id what a sweep had selected in an earlier transaction |
| FileSteps.SweepDropsOldReservations | backend/app/repositories/files.py:250-267 | a sweep in the step system drops exactly the rows that are not ready and older than its cutoff |
| FileSteps.RowGoesIff | backend/app/repositories/files.py:220-267 | a row goes with its own request's abandonment or with a sweep, and with nothing else |
| FileSteps.YoungReservationStays | backend/app/repositories/files.py:250-267 | in every run a reservation at least as young as every later cutoff is there until its own request gives it up |
| FileSteps.ColumnsStay | backend/app/repositories/files.py:172-238 | which columns of a row a step may change: never its owner or its age |
| FileSteps.VersionLands | backend/app/repositories/files.py:188-218 | a version is the last and current one, under the id that its put returned and with its size; what does not fit or has no id leaves the row |
| FileSteps.FinalizationLands | backend/app/repositories/files.py:172-186 | a finalization adds version 1 under that id, and succeeds when no other file has the name |
| FileSteps.ObjectsAfter | backend/app/api/routes/files.py:217-296 | what the bucket holds after each step: puts add a version, removals leave a marker |
| FileSteps.VersionFitsIff | backend/app/repositories/files.py:143-155 | a version is let through if and only if the owner stays within the quota with its size in place of the current one |
| FileTable.UsedCountsEveryRow | backend/app/repositories/files.py:120-129 | the used bytes count every row of the owner with its size, pending and trashed ones too |
| FileRuns.FinishedIsKept | backend/app/repositories/files.py:250-267 | with sweeps in one transaction a finished upload and its versions are there for good |
| FileRuns.OneFilePerName | backend/app/repositories/files.py:172-186 | in every interleaving no two live ready files of an owner have the same folder and name |
| FileRuns.QuotaHoldsIff | backend/app/repositories/files.py:143-155 | every moment of a run is within the quota if and only if every version that lands separately still fits at that moment |
| FileRaces.RacingVersionsExceedQuota | backend/app/api/routes/files.py:262-273 | two version uploads that both pass the check: twelve bytes used of a quota of nine |
| FileRuns.Serve | backend/app/repositories/files.py:133-267 | the repository class takes the same step on its rows as the step system |
| FileRuns.SplitSweepLosesUpload | backend/app/repositories/files.py:259-266 | the concrete interleaving that loses a finished upload otherwise |
| FileRuns.AbandonGivesBack | backend/app/api/routes/files.py:236-243 | abandoning gives back exactly the reserved bytes |
| Backfill.Migration.Move | backend/app/scripts/backfill.py:76-117 | the writes for one object, up to any crash |
| Backfill.Migration.Execute | backend/app/scripts/backfill.py:49-119 | a whole run, refused without confirmation, dry, or interrupted after any number of writes |
| Backfill.NothingIsLost | backend/app/scripts/backfill.py:12-14 | any number of runs, each interrupted anywhere: every object is at its old key or at the key of a committed ready row with its owner and name |
| BackfillScope.MovesExactlyLegacy | backend/app/scripts/backfill.py:64-117 | after an uninterrupted run over the whole bucket: a key with a name that is no UUID and that no row names was moved, with its bytes and a live row at the root of its owner, or skipped with a live ready row of its name up to case there; every other key was neither and keeps its bytes |
| BackfillScope.DryRunListsLegacy | backend/app/scripts/backfill.py:64-74 | a dry run announces exactly the listed keys of that kind |
| BackfillScope.PartitionIs | backend/app/scripts/backfill.py:66 | owner and name are what is before and behind the first slash |
| BackfillScope.WritesInOrder | backend/app/scripts/backfill.py:76-117 | the single writes for one object, in their order, and the two writes when the name is taken |
| BackfillScope.RunGoesOn | backend/app/scripts/backfill.py:64-117 | how a run goes on after each object, or is interrupted in the work on it |
| BackfillScope.EnoughWritesFinish | backend/app/scripts/backfill.py:64-119 | a listing of the bucket is worked through with three writes for each key |
| BackfillScope.RowsAreBacked | backend/app/scripts/backfill.py:76-104 | wherever runs are interrupted, no row is without its object |
| BackfillScope.NamesStayDistinct | backend/app/scripts/backfill.py:17-22 | no two live ready rows of an owner at the root have one name up to case |
| BackfillSettles.RunKeepsRows | backend/app/scripts/backfill.py:62-117 | existing rows keep their bytes, wherever a run is interrupted |
| BackfillSettles.FinishSettles | backend/app/scripts/backfill.py:64-119 | an uninterrupted run leaves nothing that a run would move |
| BackfillSettles.AnotherRunDoesNothing | backend/app/scripts/backfill.py:12-14 | after it another run moves nothing and leaves rows and objects as they were |
| BackfillSettles.ReportIsExact | backend/app/scripts/backfill.py:114-119 | what an uninterrupted run reports as moved is exactly the difference in the bucket, each with its row |
| BackfillSettles.DryRunAnnounces | backend/app/scripts/backfill.py:72-74 | a dry run announces exactly what a run then moves or skips |
| InvoiceTable.InvoiceRepository.ValidateInvoice | backend/app/repositories/invoices.py:106-122 | writes the columns that differ from what was loaded, and fails on a deleted row |
| InvoiceTable.InvoiceRepository.SetPaid | backend/app/repositories/invoices.py:124-126 | writes the payment date if it differs from what was loaded |
| InvoiceTable.InvoiceRepository.SetStatus | backend/app/repositories/invoices.py:144-146 | writes the status whatever is stored |
| InvoiceTable.InvoiceRepository.FinishReading | backend/app/repositories/invoices.py:148-170 | applies only to a waiting invoice and says whether it did; each field found goes into its own column, the others stay, and a failure writes its reason and no field |
| InvoiceTable.InvoiceRepository.ResetStuck | backend/app/repositories/invoices.py:172-181 | exactly the waiting invoices fail, and the count is the number of rows that changed |
| InvoiceTable.ValidateColumns | backend/app/repositories/invoices.py:106-122 | a validation writes each column that it wants different from what it had loaded, and no other |
| InvoiceRuns.ReadingRecords | backend/app/repositories/invoices.py:148-170 | the end of a reading in the step system writes these columns of its own invoice, while that waits |
| InvoiceRuns.NewInvoiceColumns | backend/app/repositories/invoices.py:26-51 | the columns of an uploaded and of a manual invoice |
| InvoiceRuns.OtherColumns | backend/app/repositories/invoices.py:124-181 | a start writes the status alone, a payment its date alone, a sweep fails what waits; all else stays |
| InvoiceRuns.StepInv | backend/app/invoice_extraction.py:228-280 | every step keeps the invariant as long as sweeps find no job that has yet to start |
| InvoiceRuns.ValidatedStays | backend/app/repositories/invoices.py:157-159 | a validated invoice stays validated and complete; only its deletion, a validation checked before, and the paid route touch it |
| InvoiceRuns.ValidatedToTheEnd | backend/app/repositories/invoices.py:157-159 | in every ordered run a validated invoice stays validated until its deletion, and unchanged when no person writes |
| InvoiceRuns.OnlyPeopleValidate | backend/app/api/routes/invoices.py:328-338 | only a person makes an invoice validated |
| InvoiceRuns.ValidatedIsComplete | backend/app/api/routes/invoices.py:38-52 | in every ordered run a validated invoice has service, total and due date, and only such a one has a payment date |
| InvoiceRuns.OneProcessIsOrdered | backend/app/main.py:16-29 | a run in which each sweep directly follows a crash is ordered: no sweep finds a job that has yet to start |
| InvoiceRuns.CompleteInOneProcess | backend/app/main.py:16-29 | the same in every run of one process at a time, in which a sweep comes only directly after a crash |
| InvoiceRuns.StaysInOneProcess | backend/app/repositories/invoices.py:157-159 | in every run of one process at a time a validated invoice stays validated until its deletion, and unchanged when no person writes |
| InvoiceRuns.Serve | backend/app/repositories/invoices.py:26-181 | the repository class takes the same step on its rows as the step system |
| InvoiceRuns.UnclearSweepUndoes | backend/app/invoice_extraction.py:234-237 | whenever a sweep finds a job that has yet to start on an existing invoice, a validation can be set back to extracting by that job |
| InvoiceRuns.ValidationCompletes | backend/app/repositories/invoices.py:114-122 | a validation that nothing came between records exactly what was confirmed |
| Decimals.RoundingTwiceIsOnce | backend/app/costs.py:30 | rounding half-even first at a finer even scale does not change the second rounding |
| Decimals.MeanInCents | backend/app/costs.py:30 | dividing with 28 digits and quantizing to cents is the half-even cent of the exact quotient |
| Decimals.AboveByPercent | backend/app/costs.py:34-35 | the decimal comparison is the exact test on whole cents |
| Decimals.FixIsNearest | backend/app/costs.py:28-35 | sums and products are exact while 28 digits hold them, and else rounded to the nearest number that they hold |
| Costs.Series | backend/app/costs.py:47-57 | the points of the invoices sorted by date and id |
| Costs.SameInvoicesSameSeries | backend/app/costs.py:47-57 | two listings of the same invoices give the same series |
| Costs.LaterChangesNothing | backend/app/costs.py:54-56 | an invoice that comes last adds its point and changes no other |
| Costs.MiddleChangesSix | backend/app/costs.py:28 | one in the middle changes nothing before it, and nothing from the sixth place behind it on |
| Costs.ReferenceIsMean | backend/app/costs.py:26-31 | with three or more earlier invoices the reference is the half-even cent of the mean of the last six, or of all when they are fewer, off by at most half a cent |
| Costs.PointIsExact | backend/app/costs.py:54-56 | the reference from the totals of the six or fewer points before, and flagged if and only if 100 * total > reference * (100 + percent) |
| Costs.SeriesIsExact | backend/app/costs.py:47-57 | the whole series: one point for each invoice, by date and id, each with the reference and the flag that the six or fewer totals before it say |
| Money.AmountRoundTrip | backend/app/invoice_extraction.py:58-81 | an amount with two decimals, grouped or not, with a mark other than the separator and any currency sign around it, is read back to the cent |
| Money.WholeNumberReadBack | backend/app/invoice_extraction.py:67-74 | a whole number in comma or dot groups is read back, or as a thousandth of it when it has exactly one separator |
| Money.WholeNumberIff | backend/app/invoice_extraction.py:67-74 | it comes back as itself if and only if it does not have exactly one separator |
| Money.ExponentIsRefused | backend/app/invoice_extraction.py:67-68 | digits on both sides of an `e` are refused |
| Money.ParseReads | backend/app/invoice_extraction.py:78-81 | a minus, digits, a point and digits again, in part, are read as that number |
| Money.ParseRefusesOthers | backend/app/invoice_extraction.py:78-81 | no other text is a number |
| Money.OtherKinds | backend/app/invoice_extraction.py:58-66 | a JSON number is taken as it is; a truth value and anything else is no amount |
| Money.BoundedMayReachLimit | backend/app/invoice_extraction.py:84-89 | any number in bounds is kept to the nearest unit and never above the limit; with more decimals than the column it becomes the limit if and only if it is within half a unit of it, with no more it stays below |
| Money.BoundedIff | backend/app/invoice_extraction.py:84-89 | an amount is kept if and only if it is read, not negative, and below the limit |
| Money.HalfACentBelow | backend/app/invoice_extraction.py:84-89 | for every limit, the text half a cent below it is read exactly and stored as the limit |
| Money.LimitExample | backend/app/invoice_extraction.py:84-89 | the text 9999999999.995, with the limit of the amount columns, is stored as the limit |
| HouseholdTable.HouseholdRepository.Create | backend/app/repositories/households.py:52-65 | household and owner together, or nothing for a person who is in one |
| HouseholdTable.HouseholdRepository.SetRole | backend/app/repositories/households.py:67-77 | the role of a member of this household, or nothing |
| HouseholdTable.HouseholdRepository.Remove | backend/app/repositories/households.py:79-86 | a member of this household goes, or nothing |
| HouseholdTable.HouseholdRepository.Delete | backend/app/repositories/households.py:88-91 | the household, its members and its invitations go |
| HouseholdTable.HouseholdRepository.Redeem | backend/app/repositories/households.py:114-142 | claim and join together, or nothing |
| HouseholdRuns.ExactlyOneOwner | backend/app/api/routes/household.py:109-138 | in every interleaving each existing household has exactly one owner, and nobody is in one that is gone |
| HouseholdRuns.OwnerStays | backend/app/api/routes/household.py:114-138 | an owner stays one exactly as long as the household exists |
| HouseholdRuns.OwnerToTheEnd | backend/app/api/routes/household.py:114-138 | an owner of a household owns it at the end of every run that leaves it in place |
| HouseholdRuns.OnlyFoundersOwn | backend/app/repositories/households.py:52-58 | a person becomes an owner only by founding, being in no household before |
| HouseholdRuns.DeletedIsGone | backend/app/repositories/households.py:88-91 | a deleted household never has a member or an invitation again |
| HouseholdRuns.OneJoinEach | backend/app/repositories/households.py:117-126 | an invitation accounts for at most one join, and is used if and only if it does |
| HouseholdRuns.JoinIsAllOrNothing | backend/app/repositories/households.py:114-142 | a failed join changes nothing; a successful one takes a person from no household into the invited one |
| HouseholdRuns.LateWriteStaysInside | backend/app/repositories/households.py:68-72 | however late a write lands, it reaches nobody outside the household it was checked for |
| HouseholdSteps.MembersAfter | backend/app/repositories/households.py:52-142 | who is a member after a step, and as what |
| HouseholdSteps.HouseholdsAfter | backend/app/repositories/households.py:52-142 | which households and invitations there are after a step |
| HouseholdRuns.Serve | backend/app/repositories/households.py:52-142 | the repository class takes the same step on its tables as the step system |

## Left out

- InvoiceRuns.StepInv: requires of each sweep that no job has yet to start on an existing invoice; `InvoiceRuns.OneProcessIsOrdered` shows that this is so when processes follow each other, and `InvoiceRuns.UnclearSweepUndoes` what happens otherwise.
- FolderDrive.EveryRunIsSound: serial runs only; `FolderTree.LandingMoveIff` and `FolderDrive.BothCheckedThenWritten` say when interleaved moves are safe.
- ChatSession.SessionFenced: requires `NoGap`, the exact condition; `ChatSession.EverySessionIsSane` and `ChatSession.EarlierFetchIsSilent` do not.
- ChatRegistry.Perform: relates the entries of the registry; `HearTask`, `HearFinish`, `HearOwn`, `HearFromNow` and `HearNoMore` relate the queue of any one subscriber, and that the requests, stops and subscriptions of others leave it alone is not stated.
- FolderTree.UpwardAgreesWithDownward: requires that no live folder is under a trashed one, which `FolderDrive.EveryRunIsSound` gives; without it only `FolderTree.SubtreeIsRefused` holds.
- Money.WholeNumberReadBack: ASCII digits only; the code's pattern also accepts the digits of other scripts.
- Costs.SameInvoicesSameSeries: requires different ids, as the primary key guarantees.
- HTTP, authentication, the model server, Postgres and the object storage themselves: tables and the bucket are maps, a transaction is a step, a foreign call is an arbitrary outcome.
- UTF-8 and JSON: texts are character sequences; in `EventWire` a payload is a line that begins with a brace, in `EndToEnd` a printer and a parser that undo each other are parameters.
- Time: flushes, the sweep's cutoff and the expiry of invitations happen at arbitrary moments or by a clock parameter.
- asyncio: a cancel arrives at the await where the run is suspended, and code between two awaits is atomic.
- Titles, the prompt's context, the model list, usage counts and time stamps of messages.
- The `error` and `progress` events' effect on the page beyond texts, status and error; the sidebar's list.
- Renaming and deleting conversations in the chat page, and messages added by a second tab.
- Several API workers: the registry is one process, as in the code.
- Validation of file names, tags, listing order and search; names are compared by ASCII case folding only.
- In the folder step system files change arbitrarily between folder steps; uploads still pending into a deleted folder stay, as in the code.
- The audit log.
- The uniqueness of invoice numbers per service: a write that it refuses is a request that gives up, or a reading that fails.
- Matching of providers and services by name, dates, texts and the rest of `clean` and `build`: single expressions without a deeper invariant.
- Content types and the version rows of migrated files, which all have number 1.
- Periods, consumption and the stored extraction of an invoice: four fields stand for all of them.
- Monthly totals and `is_paid`.
- The household scope of invoices and the display names of members.
- The collector, the metrics, the infra dashboard, providers, and the Vue views.
