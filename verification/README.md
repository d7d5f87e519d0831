# The client-side protocols of ODE, modelled and proved in Dafny

ODE's web application runs several small concurrent protocols in the browser: a queue of
calls per workbench, an editor over a working copy that other answers move under it, a card
that polls the runs a conversation launched, and a title that blinks until the developer is
back. This project models them, together with the text formats they depend on, and proves
what they promise over every run and every input. `dafny verify dfyconfig.toml` checks it.

## What is modelled

- **The call queue** (`CallQueue`, `Fifo`). The promise chains of `workspace` in
  `frontend/src/api.ts`, with issues, starts, executions, answers, failures and workbench
  switches in any interleaving, over any number of workbenches, against any deterministic
  checkout. The chains are shown to be one FIFO per workbench, sequentially consistent, and
  blind to each other. `WorkspaceQueues` is the module state updated in place.
- **The editor** (`CodePane` and what builds on it). `FilesPane` and `Editor` of
  `frontend/src/code.tsx`. One handler or one answer, with the render and the effects it
  causes, is one step; a `cancelled` flag is a run number. `CodePane.FilesPane` is the
  component with its state variables and refs, each method proved to be the step function of
  the same name. `EditorSafety` holds for any environment, `EditorSelection` needs the queue's
  order; `EditorMoves` says exactly when a save may overlap a selection, and `EditorOverlaps`
  gives the runs on which it may not. `Checkout` closes the pane over one checkout with a working
  copy, HEAD and ignored files, the backend and git serving them as `pkg/kernel/workspace.go` and
  `pkg/repo/service.go` do. `EditorMirror`, `EditorNul` and `EditorLocked` prove what then holds of
  the text and of files that are none;
  `EditorBase`, `EditorBaseSteps`, `EditorTold` and `EditorDiff` what holds of the diff;
  `EditorRuns`, `EditorIdle` and `EditorSilence` give the exact condition on the status and the
  queue a file is selected under.
- **Launched runs** (`Json`, `JsonGrammar`, `LaunchResult`, `LaunchedRuns`, `Polling`). The id in a
  `launch_experiment` result of any nesting, over a JSON reader that is proved to accept exactly the
  texts of the grammar of RFC 8259, and a writer whose texts it reads back; the key that
  carries ids into the read; the merge, the order and the rows of a card; and the loads and the
  interval of `useLaunchedRuns` against a cluster whose jobs do not leave a terminal status.
- **The blinking title** (`Attention`), **the query of a request** (`Urls`), and **the owners
  line** (`Owners`), with `StableSort`, `Filters`, `Splits` and `Texts` for the library
  functions they call.

## What does not hold

The code does not always do what its comments suggest. Each of these has a lemma with the
failing runs, and the theorem beside it says exactly when the promise is kept.

- A save's continuation puts back the file it captured, without a generation check
  (`frontend/src/code.tsx:1889`). With a save in flight, every order of the answers ends right
  if and only if the selection moves to a file that the same workbench has to be read for
  (`AMoveDuringASaveIsRightExactly`). Otherwise the old file can come back: under another
  workbench, where the next save writes the other checkout's text under the old path
  (`ASaveFollowsIntoAnotherWorkbench`), or over the empty draft of a file that turned out deleted
  (`ADeletionDuringASave`). A save made while another file loads always can go wrong
  (`ASaveIsRightExactly`, `ASaveWhileAnotherFileLoads`).
- A text with a NUL is saved as text and read back as binary, so the next version bump takes
  the editor away (`ANulTakesTheEditorAway`). With nothing in the queue, a save within the limit is
  followed only by re-reads that leave the pane alone if and only if its text holds no NUL
  (`ASaveReadsBackExactly`).
- A file that git ignores and HEAD lacks is in no status, so it is compared with its own text
  instead of with nothing (`AnIgnoredFileIsComparedWithItself`). `TheDiffIsAgainstHead` is exact:
  the diff is against HEAD unless git overlooks the file and it was not empty when its base was
  taken.
- A save is answered, and the reload after it still waits for the connection's answer, so its
  status read is not in the queue yet. A file that HEAD holds and the status does not list is now
  opened and compared with its own text; if HEAD's text is then saved back, no later status
  changes the base, and the diff stays wrong with nothing outstanding (`ASilentStatusMarksForGood`).
  With no save in flight, every continuation of such a selection ends right if and only if the file
  is as HEAD has it when it is selected, or a call of the bar or of a reload stands in the queue: a
  status, also that of a fetch, discard or stash, a commit or a push
  (`ASelectionEndsRightExactly`). A file the status does list always ends right
  (`ATrueOrQueuedWordEndsRight`).
- `useLaunchedRuns` does not order its loads. A load from before a launch that answers after
  the launch's own takes the new run off the card and switches polling off
  (`AnOlderAnswerDropsALaunch`). If every run asked for is found, the card holds all launches
  exactly if the load answered last knew each of them, by its key or its listing
  (`TheLastAnswerDecides`).
- An `experiment_id` that is the empty string is found in a text but not in an envelope
  (`OnlyTheEmptyIdIsLost`), and a path with a fragment swallows the workbench
  (`WorkbenchIsOneMorePair`).

## Model

| member | source | states |
|---|---|---|
| CallQueue.StartsExactlyAfterItsOwn | frontend/src/api.ts:169-183 | a waiting call may start if and only if every earlier call of its own workbench has settled, either way; no other workbench matters |
| CallQueue.OneAtATime | frontend/src/api.ts:150-183 | in every run a workbench has at most one call in flight, and its calls start in issue order |
| CallQueue.CallsKeepTheirWorkbench | frontend/src/api.ts:105-109 | a workbench's calls are those issued while it was active, in that order, whatever is switched before they run |
| CallQueue.EachCallRunsOnce | frontend/src/api.ts:174-182 | no run starts a call twice, and one that is past waiting was started once |
| CallQueue.TurnsUseWorkUp | frontend/src/api.ts:169-183 | outstanding work falls with every start, execution, answer and failure, and grows only with a new call |
| CallQueue.NeverBlocked | frontend/src/api.ts:176-181 | the oldest unsettled call of a workbench can always take its turn, so a failed call blocks nothing behind it |
| CallQueue.EverythingCanSettle | frontend/src/api.ts:169-183 | from every reachable state there is a continuation that settles all calls within the outstanding work |
| CallQueue.SequentiallyConsistent | frontend/src/api.ts:150-183 | after any run each checkout and its answers are those of running that workbench's calls one at a time in issue order |
| CallQueue.OnlyOwnCallsMatter | frontend/src/api.ts:160-183 | two runs with the same calls to a workbench and the same of them lost agree on its checkout and answers, whatever happens elsewhere and whenever |
| CallQueue.ChainRefinesFifos | frontend/src/api.ts:168-183 | the chains refine per-workbench FIFOs: issuing appends, an answer or failure removes an entry that is first of its workbench, nothing else changes what is outstanding |
| CallQueue.WorkspaceQueues.constructor | frontend/src/api.ts:105-168 | starts with no active workbench and no queue, with the chain invariant |
| CallQueue.WorkspaceQueues.SetActiveWorkbench | frontend/src/api.ts:107-109 | sets the active workbench, null meaning empty, and leaves every queue and issued call as it was |
| CallQueue.WorkspaceQueues.Workspace | frontend/src/api.ts:169-183 | the call joins the queue of the workbench active now, behind its tail, and becomes the tail; the chain invariant is kept |
| CallQueue.WorkspaceQueues.Run | frontend/src/api.ts:173-180 | a ready call runs with the workbench and operation it was issued with, after all earlier ones of its workbench |
| CodePane.Find | frontend/src/code.tsx:1688 | the first entry of the status for the path, and none only if there is none |
| CodePane.FilesPane.constructor | frontend/src/code.tsx:1649-1879 | the first render opens the selected file, and the re-read effect does nothing |
| CodePane.FilesPane.RunOpenEffect | frontend/src/code.tsx:1722-1762 | clears, shows a deleted file as empty, or asks for the file, by the selection and its status |
| CodePane.FilesPane.RunBaseEffect | frontend/src/code.tsx:1779-1816 | derives the committed side from the render it closed over: nothing before the first read, empty for a new file, the text on record for an unchanged one, a read of HEAD otherwise |
| CodePane.FilesPane.RunRereadEffect | frontend/src/code.tsx:1841-1879 | after a version bump asks for the open file again, unless there is none or it is a deleted one |
| CodePane.FilesPane.MountEditor | frontend/src/code.tsx:2012-2023 | an editor is mounted for text only, re-created exactly for another read, path or language |
| CodePane.FilesPane.Render | frontend/src/code.tsx:1722-1879 | runs exactly the effects whose dependencies moved, in declaration order, the base once more if they moved the read |
| CodePane.FilesPane.Show | frontend/src/code.tsx:1649-1689 | new props from the address or the parent are a render |
| CodePane.FilesPane.OnChange | frontend/src/code.tsx:2202-2205 | typing changes the draft and the editor's own text alike |
| CodePane.FilesPane.Save | frontend/src/code.tsx:1881-1888 | sends the file and draft of the moment of the click, and nothing for no file, a binary or a deleted one |
| CodePane.FilesPane.OnOpened | frontend/src/code.tsx:1740-1754 | an open's answer replaces file, draft and read, or shows its error, unless it was cancelled |
| CodePane.FilesPane.SettleReread | frontend/src/code.tsx:1849-1875 | a re-read replaces nothing for the same text, a cancelled or older read, or unsaved edits, which it marks overtaken; a 404 closes the file |
| CodePane.FilesPane.OnReread | frontend/src/code.tsx:1858-1878 | the re-read's answer, with the render it causes |
| CodePane.FilesPane.OnCommitted | frontend/src/code.tsx:1794-1812 | HEAD's side becomes text, nothing for an absent file, or a note for binary, truncated or failed, unless cancelled |
| CodePane.FilesPane.OnWritten | frontend/src/code.tsx:1888-1896 | a save's answer puts back the captured file with the text written and clears the overtaken note; a refusal only shows its error |
| CodePane.TheLanguageIsNamedOrGuessed | frontend/src/monaco.ts:67-87 | the backend's word counts where Monaco knows it, toml is ini, and otherwise the suffix of the path decides |
| EditorSafety.TheEditorShowsTheDraft | frontend/src/code.tsx:2012-2023 | in every reachable state an editor is mounted exactly for shown text, for the read on screen, and holds the draft |
| EditorSafety.LockedFilesAreNeverWritten | frontend/src/code.tsx:1881-1889 | no run sends a write of a binary, truncated or deleted file, and such a file's draft is its text |
| EditorSafety.UnsavedIsWhatTheEditorSays | frontend/src/code.tsx:1924 | in every reachable state the pane counts as unsaved exactly when the editor's own text is not the one on record |
| EditorSafety.UnsavedTextSurvivesAStep | frontend/src/code.tsx:1831-1897 | while the selection stays, no step but typing changes a dirty draft: not a re-read, a status, a failing or a succeeding save |
| EditorSafety.TypedTextIsConserved | frontend/src/code.tsx:1831-1897 | over any such run the text typed last is still the draft or has been the text on record since |
| EditorSafety.StaleAnswersAreInert | frontend/src/code.tsx:1738-1857 | an answer to a cancelled open, an older read's re-read or a cancelled committed read changes nothing but the queue |
| EditorSafety.EveryReplacementIsANewRead | frontend/src/code.tsx:1678-1686 | the read never falls, and rises with every text put on screen other than by typing or a save's own answer |
| EditorSelection.TheLastSelectionWins | frontend/src/code.tsx:1738-1747 | if no save is made while a selection loads, and none is in flight when the selection moves to no file, a deleted one or another workbench, the file shown is the selected one of the workbench or none, once its answer is in |
| EditorSelection.EverySaveGoesHome | frontend/src/code.tsx:1881-1888 | in such runs each save goes to the workbench its file was read from, and is still about the selected file |
| EditorSelection.ADeletedFileIsShownReadOnly | frontend/src/code.tsx:1729-1737 | in every state a careful run reaches: a selected file whose entry in the status says deleted is an empty text in a read-only editor, and nothing writes it |
| EditorSelection.ARefusalIsShown | frontend/src/code.tsx:1748-1754 | a refused answer that counts shows its message and keeps everything typed: an open closes the file, a re-read only for a 404 and never over unsaved edits, a save keeps file and draft, a read of HEAD becomes a note |
| EditorSelection.TheButtonComesBack | frontend/src/code.tsx:1885-1896 | over every run the pane says it is saving only while a save is under way |
| EditorMoves.AMoveDuringASaveIsRightExactly | frontend/src/code.tsx:1722-1747 | from every state a careful run reaches, with a save in flight and no further save or move: every order of the outstanding answers leaves the right file or a loading selection if and only if the moved selection has to be read from the same workbench |
| EditorMoves.ASaveIsRightExactly | frontend/src/code.tsx:1881-1897 | likewise for a save: every order ends right if and only if the file saved is the selected one and no re-read of it is out to another workbench |
| EditorMoves.ASaveMustWaitForTheSelection | frontend/src/code.tsx:1881-1897 | a save made once the selection has loaded always ends right, one made while another path loads does not |
| EditorOverlaps.ASaveFollowsIntoAnotherWorkbench | frontend/src/code.tsx:1888-1889 | the failing run from the first render: after a switch of workbench the save's answer comes last, puts the old checkout's file over the new one's text, and the next save would write that text into the new checkout under the old path |
| EditorOverlaps.ADeletionDuringASave | frontend/src/code.tsx:1731-1737 | the failing run from the first render: a file that turns out deleted during its save comes back over an empty draft that the next save would write; it takes typing exactly if the deleted file's editor was of another language |
| EditorOverlaps.ASaveWhileAnotherFileLoads | frontend/src/code.tsx:1881-1897 | the failing run from the first render: the queue puts the saved file back over the newly loaded text, and the next save would write that text into it |
| EditorMirror.RereadFindsTheRecord | frontend/src/code.tsx:1859-1867 | while only the pane moves its checkout, a re-read's answer leaves the pane as it was |
| EditorMirror.AVersionBumpReplacesNothing | frontend/src/code.tsx:1824-1834 | over all runs of open, type, save, commit, push and fetch, no save overlapping such a selection and no NUL saved, the record is the working copy's text, nothing is overtaken and re-reads change nothing |
| EditorNul.ASaveReadsBackExactly | pkg/kernel/workspace.go:719-724 | from every state a plain run from the opening leads to, with nothing in the queue: a save within the limit is followed, over every plain continuation, only by re-reads that leave the pane alone, if and only if its text holds no NUL |
| EditorNul.ANulTakesTheEditorAway | frontend/src/code.tsx:1859-1867 | the failing run from the opening: open, type a text with a NUL, save, version bump, re-read; the text is in the working copy, the file on screen is binary and its editor gone |
| EditorLocked.WhatCannotBeEditedIsKept | frontend/src/code.tsx:2001-2012 | over every run without a discard or a stash, saves overlapping as they like: a file of the working copy that is no text, or longer than the limit, keeps every byte, and no save of it is ever under way |
| Checkout.Reset | pkg/repo/service.go:1087-1133 | a discard or a stash brings back every file of HEAD, and of the others leaves exactly the ignored ones, by the rules the reset brings back for a discard and by the present ones for a stash |
| Checkout.ACommitLeavesNothingToSay | pkg/repo/service.go:937-957 | after a commit of everything an empty status is true, and nothing ignored has been taken in |
| EditorDiff.TheDiffIsAgainstHead | frontend/src/code.tsx:1764-1819 | in runs with discards and stashes as well, over unsaved edits too, no save overlapping a selection, discard or stash, no overtaken note, no NUL saved, and selections under a status true of that file or with a call of the bar in the queue: with nothing outstanding an open file is the selected one with the working copy's text, and, if and only if git does not overlook the file or its base was taken while it was empty, the original side is what git says it is: nothing for an added or untracked file, HEAD's file under the old name for a renamed one, HEAD's file otherwise, with a note exactly where HEAD's text cannot be shown |
| EditorDiff.NoEditIsOvertaken | frontend/src/code.tsx:1831-1857 | if no edit is open or typed while a discard or a stash is under way, no overtaken note is ever raised |
| EditorDiff.AnAnswerOfHeadIsComparedWith | frontend/src/code.tsx:1792-1819 | an answer of HEAD that counts becomes the original side: a note exactly if it is binary or truncated, else its text, or nothing for a file HEAD lacks |
| EditorDiff.ANewReadHasNoMarks | frontend/src/code.tsx:1786-1819 | a file just opened is compared with its own text until HEAD's answer, whatever the base of the file before it, and with nothing if it is added or untracked |
| EditorDiff.SideIsHeads | pkg/repo/service.go:1246-1257 | HEAD's answer becomes HEAD's text, nothing for a missing file, or a note exactly for one over the limit, not decoding, or holding a NUL or a replacement character |
| EditorDiff.ARefusedSideIsNoted | frontend/src/code.tsx:1810-1812 | a read of HEAD that fails is noted with its message |
| EditorRuns.AnIgnoredFileIsComparedWithItself | pkg/repo/service.go:656-657 | the failing run from the opening: an ignored file that HEAD lacks is compared with its own text |
| EditorSilence.ATrueStatusExists | pkg/repo/service.go:655-662 | every checkout has a true status, silent about every file that is as HEAD has it |
| EditorSilence.ASelectionEndsRightExactly | frontend/src/code.tsx:1787-1816 | with no save in flight, a file the status does not list and that can be edited here and at HEAD: every orderly continuation of its selection ends right once quiet, if and only if the file is then as HEAD has it or a call of the bar or of a reload stands in the queue |
| EditorSilence.ATrueOrQueuedWordEndsRight | frontend/src/api.ts:169-183 | with no save in flight, every orderly continuation of a selection ends right if the status lists the file, is true of it, or such a call stands in the queue, whatever the file holds |
| EditorSilence.ASilentStatusMarksForGood | frontend/src/code.tsx:1787-1816 | the failing run from the opening: a file re-opened before its save's status, then saved back, stays compared with a text HEAD does not hold, with nothing outstanding and every status true |
| Json.Parse | frontend/src/experiments.tsx:1674-1680 | a parsed value weighs no more than the text it came from |
| JsonGrammar.ParseIsExact | frontend/src/experiments.tsx:1674-1680 | for every text and value: the reader answers the value if and only if the text is one of its texts in the grammar of RFC 8259, with white space around every token and every form of characters and numbers |
| JsonGrammar.WellFormedNumberIsNumeral | frontend/src/experiments.tsx:1676 | a well-formed number is one written in the grammar's form |
| JsonGrammar.ParseStringify | frontend/src/experiments.tsx:1674-1680 | parsing what JSON.stringify wrote gives the value back, for every value |
| LaunchResult.ParseJson | frontend/src/experiments.tsx:1674-1680 | what is read from a string, null for prose, weighs strictly less than the string value: the measure by which the extractor terminates |
| LaunchResult.Field | frontend/src/experiments.tsx:1662-1670 | a property weighs less than its object |
| LaunchResult.TheFirstBlockWithAnIdWins | frontend/src/experiments.tsx:1660-1668 | an envelope answers an id if and only if some block yields it, non-empty, and every block before yields none or the empty one |
| LaunchResult.AnswersTheCarriedId | frontend/src/experiments.tsx:1656-1671 | for every value and non-empty id: it is answered if and only if the value is, under some finite nesting of texts and envelopes, an object with that experiment_id |
| LaunchResult.OneIdIsCarried | frontend/src/experiments.tsx:1656-1671 | no value carries two different non-empty ids |
| LaunchResult.NestedIdIsFound | frontend/src/experiments.tsx:1656-1668 | an id survives any finite nesting, whatever the layers are written like |
| LaunchResult.StringifyingKeepsTheId | frontend/src/experiments.tsx:1657-1659 | a result and its JSON text name the same run, the empty id included |
| LaunchResult.EnvelopeId | frontend/src/experiments.tsx:1660-1668 | an envelope around a text answers its non-empty id, and otherwise that of the blocks behind |
| LaunchResult.EncodingKeepsTheId | frontend/src/experiments.tsx:1656-1671 | any finite sequence of stringifications and envelopes keeps a non-empty id |
| LaunchResult.OnlyTheEmptyIdIsLost | frontend/src/experiments.tsx:1664-1665 | with no other id around, an encoding keeps the answer if and only if the id is not empty or no envelope is involved |
| LaunchedRuns.KeyCarriesTheWords | frontend/src/experiments.tsx:1594-1597 | whatever the ids hold, the key gives back all their space-separated words in order |
| LaunchedRuns.KeyRoundTrip | frontend/src/experiments.tsx:1594-1597 | the key gives back exactly the ids if and only if none is empty and none holds a space |
| LaunchedRuns.KeyIsInjective | frontend/src/experiments.tsx:1594-1622 | for such ids two keys are equal if and only if counts and ids are |
| LaunchedRuns.MergeIsExact | frontend/src/experiments.tsx:1599-1614 | an id is on the card if and only if the listing holds a run of this session with it or a read found one, and the card is newest first |
| LaunchedRuns.AsksForTheUnlisted | frontend/src/experiments.tsx:1600-1610 | a launch is read by id if and only if the listing has no run of this session with that id |
| LaunchedRuns.TiesComeAsListed | frontend/src/experiments.tsx:1612-1613 | runs submitted at one time stay in the listing's order, the ones read by id behind them |
| LaunchedRuns.UnfinishedIsStillGoing | frontend/src/experiments.tsx:205-219 | the polling predicate holds if and only if some run is pending or running, the statuses a job leaves |
| LaunchedRuns.MergedHolds | frontend/src/experiments.tsx:1600-1613 | the records on the card are exactly the listed ones whose session is this one and the ones read by id |
| LaunchedRuns.EachRunOnce | frontend/src/experiments.tsx:1599-1613 | with no id twice in the listing and none launched twice, no run is on the card twice |
| LaunchedRuns.RowsAreOwnThenOthers | frontend/src/experiments.tsx:1729-1732 | the rows are the card's own run, if there, then exactly the others that are pending or running in the list's order, none twice |
| LaunchedRuns.RowsWithoutOwn | frontend/src/experiments.tsx:1729-1732 | without a run of its own a card shows exactly the pending and running ones |
| LaunchedRuns.CardOfALaunch | frontend/src/experiments.tsx:1599-1732 | end to end: a launch that is listed or was read heads its card, followed newest first by exactly the other pending and running runs of this session or read by id |
| StableSort.SortedIsAPermutation | frontend/src/experiments.tsx:1613 | sorting loses and invents nothing |
| StableSort.OneStableOrder | frontend/src/experiments.tsx:1613 | two descending sequences with the same ties in the same order are the same: the order is settled |
| StableSort.SortedKeepsTies | frontend/src/experiments.tsx:1613 | equal ranks keep their order |
| Polling.LaunchedRunsHook.constructor | frontend/src/experiments.tsx:1587-1590 | starts empty, not loaded and without an interval |
| Polling.LaunchedRunsHook.Subscribe | frontend/src/experiments.tsx:1632-1637 | after the effect one interval is live exactly while something is pending, reading with the current key, and none is left behind |
| Polling.LaunchedRunsHook.Render | frontend/src/experiments.tsx:1594-1637 | new props read at once exactly when the key is new and something was launched |
| Polling.LaunchedRunsHook.Tick | frontend/src/experiments.tsx:1635 | a live interval reads the ids on screen, never an earlier launch's |
| Polling.LaunchedRunsHook.OnAnswer | frontend/src/experiments.tsx:1612-1616 | an answer replaces the runs by its own merge, clears the error and re-subscribes |
| Polling.LaunchedRunsHook.OnFailure | frontend/src/experiments.tsx:1617-1621 | a failure keeps the runs and the interval, and shows its error |
| Polling.WhatIsFinishedIsCurrent | frontend/src/experiments.tsx:205-219 | over any overlap and order of loads, against jobs that leave pending and running and nothing else: a run shown is out of date in such a status at most, so a card without one is current |
| Polling.PollsExactlyWhilePending | frontend/src/experiments.tsx:1629-1637 | in every reachable state a tick can come if and only if something is launched and a run on the card is pending or running, it reads with the key on screen, and a launch's card without an interval is current |
| Polling.LaunchesAreReadWhenTheyChange | frontend/src/experiments.tsx:1592-1627 | with a launch, a card reads its ids when it appears and when launches or ids change, and not when it is drawn again |
| Polling.TheCardSaysWhatTheLastLoadSaid | frontend/src/experiments.tsx:1614-1621 | over every run the card is looking until a load has come back, complains exactly if the last one failed, and has the links of the last answer |
| Polling.AFailureKeepsTheCard | frontend/src/experiments.tsx:1617-1621 | a failed load takes no run off the card and leaves its polling |
| Polling.TheNextAnswerEndsPolling | frontend/src/experiments.tsx:1629-1637 | once no job can move and earlier readings are answered, the next answer ends polling with a card of ended runs that is current, for good until a new job appears |
| Polling.AnAnswerShowsItsOwnReading | frontend/src/experiments.tsx:1596-1616 | after an answer an id is on the card if and only if that load's listing has a run of this session with it or one of its reads found it, whatever has been launched since |
| Polling.AnAnswerCompletesTheCardExactly | frontend/src/experiments.tsx:1596-1616 | with every run found, an answer completes the card if and only if each id on screen is in the key of its load or in its listing |
| Polling.TheLastAnswerDecides | frontend/src/experiments.tsx:1592-1637 | over every run with every run found: all launches are on the card if and only if the load answered last knew each, by its key or its listing |
| Polling.TheCardIsComplete | frontend/src/experiments.tsx:1560-1575 | if launches change only between loads and every run asked for is found, every launched run is on the card from the first answer since the last launch on |
| Polling.AQuietCardTellsHowEachLaunchEnded | frontend/src/experiments.tsx:1560-1637 | in such runs, when polling is off each launched run has ended, and the card shows it as the cluster has it |
| Polling.AnOlderAnswerDropsALaunch | frontend/src/experiments.tsx:1596-1637 | the failing run: an older load that answers last drops a running launch and stops polling |
| Urls.Query | frontend/src/api.ts:1026-1034 | the loop builds the encoding of exactly the parameters that are not undefined, empty or false, or nothing |
| Urls.FormTextRoundTrip | frontend/src/api.ts:1032 | form-decoding an encoded list of pairs gives it back, whatever bytes it holds |
| Urls.ComponentRoundTrip | frontend/src/api.ts:146 | decoding an encoded component gives it back, and it holds nothing a URL or a form would take for its own |
| Urls.WorkbenchIsOneMorePair | frontend/src/api.ts:144-147 | appending the workbench adds that one pair to whatever the path's query holds, if and only if the path has no fragment |
| Urls.UrlRoundTrip | frontend/src/api.ts:144-147 | a server reads from path, parameters and workbench exactly the parameters that are non-empty texts, numbers or true, in order, then the workbench if there is one |
| Attention.TitleFlash.constructor | frontend/src/attention.ts:135-137 | starts idle |
| Attention.TitleFlash.StopFlash | frontend/src/attention.ts:140-151 | clears the interval, restores the title, unhooks, and is idle when it was |
| Attention.TitleFlash.OnReturn | frontend/src/attention.ts:153-156 | ends the blink only if the developer is back |
| Attention.TitleFlash.StartFlash | frontend/src/attention.ts:158-173 | replaces a running flash, keeping the title from before the first |
| Attention.TitleFlash.Tick | frontend/src/attention.ts:164-167 | flips the mark of its own interval and shows what it stands for |
| Attention.TitleFlash.Announce | frontend/src/attention.ts:255-257 | starts a flash only in the developer's absence |
| Attention.TitleFlash.Toggle | frontend/src/attention.ts:289-303 | switching off stops the flash |
| Attention.TitleFlash.SetHidden | frontend/src/attention.ts:130-156 | a visibility change is heard while the listener is hooked, and ends the blink only on the way back |
| Attention.TitleFlash.SetFocused | frontend/src/attention.ts:130-156 | gaining focus is heard while the listener is hooked |
| Attention.EveryRunIsSound | frontend/src/attention.ts:135-173 | over every run timer, restored title and listeners agree, no interval is left behind, the page's own title is kept, and a title blinks only while the developer is away |
| Attention.TheTitleIsPutBack | frontend/src/attention.ts:136-173 | from the start: one interval at most, and with no flash, or with the developer there, the title is the original and nothing is hooked |
| Attention.AnAnnouncementIsSeenAtOnce | frontend/src/attention.ts:158-168 | announced to a hidden or unfocused page, a headline is in the title at once, over the page's own title; to one in front of the developer nothing happens |
| Attention.TheLastHeadlineWaits | frontend/src/attention.ts:153-173 | timers and listeners refine a plain waiting headline: the last one announced in absence, until a return or a switch-off |
| Attention.TicksAlternate | frontend/src/attention.ts:163-167 | two ticks change nothing, and between them the marked headline and the page's own title take turns |
| Owners.Owners | frontend/src/code.tsx:708-716 | the counting loop and the sort yield the text of the specification below |
| Owners.CountsSumUp | frontend/src/code.tsx:709-712 | the counts of all owners add up to the number of repositories |
| Owners.RankedIsExact | frontend/src/code.tsx:713 | every owner is ranked once, nobody else is, and counts do not rise along the ranking |
| Owners.TheCapKeepsTheLargest | frontend/src/code.tsx:714-715 | at most six are named, nobody left out has more than anyone named, and names plus the number behind them make all owners |
| Owners.TiesKeepTheListingsOrder | frontend/src/code.tsx:713 | owners with equal counts stay in the order of the listing |
| Owners.TheLineIsReadable | frontend/src/code.tsx:714-715 | for names without spaces and commas the line can be read back: the owners named, in order, and how many there are besides |
| Texts.DecimalSaysIt | frontend/src/code.tsx:715 | a number is written in the digits that say it |

## Left out

- A request the browser gave up on that the backend executes later: `CallQueue` lets a rejected call have been executed or not, but not be executed after its rejection.
- In `Checkout` a call is executed when it is answered, and nothing but this pane and its bar moves the checkout: no writes by the model or by another tab, no other workbench. `EditorSafety` and `EditorSelection` hold for any environment.
- Creating, deleting and listing files and directories, the scaffold and the recovery of a stash; the size and modification time shown beside a file.
- Refused git actions and refused statuses (the 409 flows of `reload` and `act`), reconnecting and retrying. A commit of an unchanged working copy is a step that changes nothing.
- A path that the backend answers under another spelling: a read is answered with the path it asked for.
- Git's pattern language: which paths are ignored is any function of a tree, heeded only for files HEAD lacks. A discard resets before it cleans, so it heeds HEAD's rules, and a stash the present ones; submodules and nested repositories are not modelled.
- The editor limit counts bytes; `Checkout` counts characters.
- Whether a status belongs to the workbench on screen: `reload` and `act` have no guard across workbenches, so the code does not decide it.
- React's scheduling below the atomic step, Monaco's own models, and the second render of a step that changes nothing the model looks at.
- The list of `ExperimentsView` (frontend/src/experiments.tsx:103-145), which polls by the same predicate without a key: its theorems would be those of `Polling` with less state.
- JSON numbers are kept as written and not as IEEE doubles, and two members of one name are both kept, the last counting; neither touches an id.
- UTF-8: `Urls` works on bytes, so the encoding of characters, and what the browser does with lone surrogates, is not part of the model.
- localeCompare is an order on `submitted_at` of which nothing is assumed; text that compares equal counts as a tie.
- Another conversation: `useLaunchedRuns` is modelled for one session, whose id does not change.
- Sound, desktop notifications, their permission and the stored switch of `frontend/src/attention.ts`; a browser without `hasFocus` counts as focused.
- Everything outside these parts of the frontend: the Go services are modelled only where the editor reads and writes files.
