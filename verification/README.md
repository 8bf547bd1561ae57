# Verified model of the Nisix gateway's stateful core

This project models five stateful parts of the gateway in Dafny and proves what they promise over every
input and every run. `dafny verify dfyconfig.toml` checks all of it.

| file | what it models |
|---|---|
| `Text.dfy` | the parts of Go's `strings` and `strconv` the other files call, with their inverses |
| `SessionContext.dfy` | the context of a session: budget signature, window, byte-bounded summary |
| `SessionManager.dfy` | the manager and its store: specification of each operation, runs, then the classes |
| `SessionAnswers.dfy` | what an append means for the transcript and for the model's next context |
| `SessionWindow.dfy` | the window as a Go slice that shares its backing array with earlier copies |
| `SessionHistory.dfy` | history pages and walks along their cursors |
| `McpProtocol.dfy` | the request/response protocol of the MCP client as a step relation |
| `McpClient.dfy` | the lock regions and channel operations of that client, each proved to be such a step |
| `McpFraming.dfy` | Content-Length frames: printer, parser, stream loops |
| `McpHeaders.dfy` | frames with any header lines |
| `McpEventStream.dfy` | the two event-stream readers against a batch reading of the whole stream |
| `McpEventMeaning.dfy` | what that batch reading answers, and that a printed stream is read back |
| `Telegram.dfy` | chunking, the window of seen updates, the rate limit, the polling offset |
| `ToolNaming.dfy` | safe and unique tool names, and a whole registration run |
| `ProfileLines.dfy`, `ProfilePatch.dfy` | the "set key" editor of USER.md, on lines and then on text; appending |
| `ProfilePatchText.dfy` | what the text of a patch sets, and the result in terms of that text |
| `WorkspaceOnboarding.dfy` | the workspace layout and its onboarding state over a file map |

Each operation that changes state is a method of a class with the source's fields (or a method with the
source's loop), and its `ensures` ties the new state to a specification function. The theorems are lemmas
about those functions. A Go string is a sequence of bytes, one character per byte; in `Telegram.dfy` and
`ToolNaming.dfy` it is a sequence of runes, as in the code. Clock readings, session ids, JSON decoding,
template expansion and growth of slices are parameters.

## The results in short

**Sessions.** In every run of Touch, ModelContext, SetContextBudget and Append, a cache whose version and
signature are current is the replay of the transcript, under whichever budget it was built; that rests on
the signature being injective. The replay has a closed form: the last min(n, H) messages, the count of the
rest, the summary of the rest. The summary is every line, or one marker and a proper suffix of the lines.

What the user or the assistant said is the last message of the next context, and nothing else that is
appended changes any context. A summary line holds the words of its message, and a trimmed summary keeps as
many whole lines as have room.

An append writes the record before it looks at the cache (`internal/sessions/manager.go:204` and `:212`), so
a stale cache is rebuilt with the new message in it and line 216 applies the message again.
`StaleAppendAppliesTwice` says what comes out, and `AppendReplaysIffCurrent` that an append of a context
message leaves a replay if and only if the cache was current before. The run theorem therefore asks context
appends to start from a current cache. `GatewayTurnAllowed` shows that a gateway turn
(`internal/gateway/server.go:215-224`) always does.

**MCP client.** One step per lock region or channel operation, in any interleaving, with any server. The
invariant gives at most one value per channel, no blocked send, no panic, no lost waiter, and answers only
for one's own id. Every answer was brought by an earlier step, and an echo of a pending id is always taken. `McpClient.Client` carries out the steps, with the loop over the pending map.

**Streams.** Frames read back exactly, whatever bytes the bodies hold, and a stream cut anywhere gives a
proper prefix. The event-stream loop answers as a batch reading of the whole stream does: with the first block
that holds a response for the request, after the notifications before it.

**Telegram, names, profiles, workspaces.** Chunks are the unique good cut of the text. A duplicate is exactly
an id among the last W accepted. A registration run replaces no tool. A profile patch is read back from its text, is idempotent, shows
the last value of each key and leaves the other lines alone. Laying out a workspace reaches a fixed point
after at most two calls, and the second call changes something in exactly one situation.

## Naming

An entry's three cache fields are grouped in `Cache`. `AppendWithOptions`, `readFrame`, `awaitPending`,
`Close`, `RegisterFromFile`, `patchUser` and `EnsureLayout` are cut into a few smaller methods, each with its
own contract. Page walks are sequences of page starts, and each step reads the printed cursor back.

## Model

| member | source | states |
|---|---|---|
| SessionContext.NormalizeBudget | internal/sessions/manager.go:109-120 | each limit that is positive is kept, and 24, 1800 and 180 stand in for the others |
| SessionContext.SignatureInjective | internal/sessions/manager.go:122-124 | budgets with equal signature strings are equal |
| SessionContext.SummaryLineShape | internal/sessions/manager.go:464-472 | a summary line is one non-empty line, starts with a dash and has at most SummaryLineMaxChars + 13 bytes |
| SessionContext.FieldsSeparated | internal/sessions/manager.go:518-519 | white space separates: the words of a text are those before it and those behind it |
| SessionContext.FieldsOfJoined | internal/sessions/manager.go:518-519 | words joined by single spaces are found again |
| SessionContext.SummaryLineHolds | internal/sessions/manager.go:464-465 | a line is "- Assistant: " or "- User: " and the words of the message joined by single spaces, cut at the byte limit, with dots where there is room |
| SessionContext.SummaryProvenance | internal/sessions/manager.go:464-496 | after any run of promotions the summary is all lines, or one leading marker, alone or with a proper suffix of the lines; the marker is there exactly when something was dropped |
| SessionContext.SummaryBound | internal/sessions/manager.go:464-496 | the summary never exceeds max(SummaryMaxChars, 23, SummaryLineMaxChars + 13) |
| SessionContext.SummaryBudgetKept | internal/sessions/manager.go:464-496 | no run exceeds SummaryMaxChars if and only if SummaryMaxChars has room for the marker and for one full line |
| SessionContext.SummaryKeepsLastLines | internal/sessions/manager.go:464-496 | with room for a line and the marker, the summary is all lines or the marker and the last j >= 1 whole lines, within the budget, where the last j + 1 take up the room beside the marker or more |
| SessionContext.SummaryWholeIff | internal/sessions/manager.go:464-496 | the summary is all lines if and only if they fit the budget or there is only one |
| SessionContext.SummaryNotBlank | internal/sessions/manager.go:498-507 | a summary is blank exactly when nothing was promoted |
| SessionContext.WindowConservation | internal/sessions/manager.go:445-462 | the replay of n messages holds exactly the last min(n, H), counts the other n - min(n, H), and its summary is that of the others |
| SessionAnswers.ConversationNext | internal/sessions/manager.go:425-440 | a transcript line adds to the conversation what a user or assistant said in a message event, and nothing otherwise |
| SessionAnswers.SaidIsAnswered | internal/sessions/manager.go:382-392 | what the user or the assistant says to a current session, in any case and spacing of the role, is the last message of its next context, behind the earlier ones up to the history limit |
| SessionAnswers.OthersChangeNoAnswer | internal/sessions/manager.go:382-392 | any other append, by role, event type or blank text, leaves every session's context as it is |
| SessionAnswers.AppendTouchesOne | internal/sessions/manager.go:207-221 | an append changes its own session's entry only, and stamps it when something was said |
| SessionAnswers.AnswerNotes | internal/sessions/manager.go:498-507 | in every allowed run the notes are empty while all messages fit, else they name how many are left out and end with the summary of exactly those |
| SessionAnswers.EmptyAppendWritesNothing | internal/sessions/manager.go:157-159 | a blank text that carries nothing changes nothing |
| SessionAnswers.AppendWritesRecord | internal/sessions/manager.go:163-206 | any other append writes one record at the end of its own transcript, and the record carries each argument in its own field |
| SessionAnswers.NormalizeKeepsGiven | internal/sessions/manager.go:353-380 | normalising a record fills only what is missing, and filling twice is filling once |
| SessionManager.RunKeepsInv | internal/sessions/manager.go:126-223 | every allowed run keeps: keys and session ids are not shared, and every trusted cache is a replay |
| SessionManager.CacheEqualsReplay | internal/sessions/manager.go:394-443 | in every allowed run, an entry trusted under any normalised budget holds the fold of its transcript's context messages, in closed form |
| SessionManager.ModelContextAnswersTranscript | internal/sessions/manager.go:233-256 | ModelContext answers with the last min(n, H) context messages, none skipped, and with a summary exactly when there are more |
| SessionManager.StaleAppendAppliesTwice | internal/sessions/manager.go:204-216 | an append to a stale cache leaves the replay of the transcript with the new message a second time |
| SessionManager.AppendReplaysIffCurrent | internal/sessions/manager.go:156-223 | an append of a context message leaves a replay if and only if the cache was current before |
| SessionManager.GatewayTurnAllowed | internal/gateway/server.go:215-224 | Touch, ModelContext and then any appends to the touched entry form an allowed run |
| SessionManager.InMemoryStore.Get | internal/sessions/store.go:44-49 | the stored entry, or none |
| SessionManager.InMemoryStore.Put | internal/sessions/store.go:51-56 | replaces the entry of its own key and no other |
| SessionManager.InMemoryStore.List | internal/sessions/store.go:58-66 | every stored entry exactly once |
| SessionManager.ApplyContextMessage | internal/sessions/manager.go:445-462 | one message moved through the window; blank messages leave the entry alone |
| SessionManager.Manager.SetContextBudget | internal/sessions/manager.go:103-107 | sets the normalised budget and changes no entry |
| SessionManager.Manager.Touch | internal/sessions/manager.go:126-150 | returns and stores the entry of the key with a new time, or a new one with an empty cache; nothing else changes |
| SessionManager.Manager.Rebuild | internal/sessions/manager.go:410-443 | the loop over transcript lines gives the replay of the conversation, skipping unreadable lines |
| SessionManager.Manager.EnsureContextState | internal/sessions/manager.go:394-408 | keeps a trusted entry, else stores the rebuilt one |
| SessionManager.Manager.AppendWithOptions | internal/sessions/manager.go:156-223 | writes one record, and for a context message applies it to the stored entry after the write; the whole new state is that of the specification step |
| SessionManager.Manager.ModelContext | internal/sessions/manager.go:233-256 | answers from the ensured entry, and the store changes only where the entry was stale |
| SessionWindow.RecentMessages.Push | internal/sessions/manager.go:445-462 | reslicing and appending in a shared backing array loses and reorders nothing, promotes at most the oldest message, and changes no slice handed out earlier |
| SessionHistory.HistoryPageFiltered | internal/sessions/manager.go:266-351 | the loops over lines and cursor arithmetic give the specified page, an error for an unknown session, an empty page without a transcript |
| SessionHistory.FilteredNext | internal/sessions/manager.go:282-310 | the history holds exactly the readable records with the role asked for and within the bounds set, in order |
| SessionHistory.PageShowsWanted | internal/sessions/manager.go:312-350 | every record on a page is wanted, a page holds at most the limit, 50 without one, and the default page is the full last one |
| SessionHistory.NextWalkShowsAll | internal/sessions/manager.go:312-350 | following NextCursor from cursor 0 ends and the pages concatenate to exactly the filtered history |
| SessionHistory.PrevWalkCovers | internal/sessions/manager.go:312-350 | following PrevCursor from the default page ends, covers every record, and overlaps only on the last, clamped page |
| SessionHistory.AppendsKeepPages | internal/sessions/manager.go:266-351 | records appended between requests never change what a cursor page showed; only the last page is extended, at its end |
| McpProtocol.NextKeepsInv | internal/mcp/client.go:420-473 | every step of any interleaving keeps the protocol invariant |
| McpProtocol.SingleResolution | internal/mcp/client.go:420-473 | in every reachable state each channel got at most one value, nothing panicked, no request returned from an empty closed channel, and an answer from the server carries the request's own id |
| McpProtocol.NoSendBlocks | internal/mcp/client.go:787-808 | a dispatcher's channel is open, and empty until it sends; the draining lock regions never block |
| McpProtocol.NoLostWaiter | internal/mcp/client.go:458-473 | a waiting request is pending, or a dispatcher is about to answer it, or its value is buffered |
| McpProtocol.DrainResolvesPending | internal/mcp/client.go:833-847 | failPending and Close put the failure into every channel pending at that moment and close it, and leave nothing pending |
| McpProtocol.NoLeak | internal/mcp/client.go:442-473 | a returned request is no longer pending, unless the client is closing |
| McpProtocol.EchoIsTaken | internal/mcp/client.go:787-799 | a reply that echoes a pending id, as a string or a number, takes that request and no other out of the map |
| McpProtocol.StrangeReplyIgnored | internal/mcp/client.go:787-799 | a message without a usable id, or whose id is not pending, changes nothing |
| McpProtocol.AnswersAreBrought | internal/mcp/client.go:787-847 | a response a request returned was dispatched, failed or closed by an earlier step of the run |
| McpProtocol.OutcomeIsFinal | internal/mcp/client.go:458-473 | what a request returned never changes in the rest of the run |
| McpClient.Client.NextID | internal/mcp/client.go:1009-1019 | takes the next number of the counter, a protocol step |
| McpClient.Client.RegisterRequest | internal/mcp/client.go:442-446 | a fresh channel under the request's id, a protocol step |
| McpClient.Client.ReceiveResponse | internal/mcp/client.go:458-472 | a ready channel yields a value, never the zero value, and an answer to the request's own id |
| McpClient.Client.TakePending | internal/mcp/client.go:775-799 | finds and takes out the channel pending under the id, case by case for strings, numbers and anything else |
| McpClient.Client.SendResponse | internal/mcp/client.go:801-807 | the send outside the lock neither blocks nor panics, a protocol step |
| McpClient.Client.CloseResponse | internal/mcp/client.go:801-808 | the close after the send meets an open channel, a protocol step |
| McpClient.Client.Forget | internal/mcp/client.go:428-438 | forgets exactly its own request, a protocol step |
| McpClient.Client.ResolveAll | internal/mcp/client.go:842-846 | the loop over the map, in any order, resolves and closes every pending channel and touches no other |
| McpClient.Client.FailPending | internal/mcp/client.go:833-847 | keeps the first error and resolves all, a protocol step |
| McpClient.Client.SignalClose | internal/mcp/client.go:330-331 | announces the close and resolves nothing yet, a protocol step |
| McpClient.Client.DrainOnClose | internal/mcp/client.go:346-353 | resolves with the closing error what is still pending, a protocol step |
| McpFraming.ParseFrameOf | internal/mcp/client.go:849-881 | reading a frame gives its body and stops right behind it, whatever bytes follow or are in the body |
| McpFraming.ReadAllFrames | internal/mcp/client.go:691-710 | reading concatenated frames gives exactly the bodies in order, then the end of input |
| McpFraming.TruncatedStream | internal/mcp/client.go:849-881 | a stream cut at any byte gives a proper prefix of the bodies |
| McpFraming.TruncatedFrame | internal/mcp/client.go:849-881 | a frame cut at any byte is an error: the end of input up to the end of its header, a short body behind that |
| McpHeaders.LastLengthCounts | internal/mcp/client.go:851-873 | whatever other lines a header has, and however the name is written, the body has the length of the last line that gives one |
| McpHeaders.NoLengthIsError | internal/mcp/client.go:874-876 | a header without a length is an error, and reading goes on behind it |
| McpHeaders.BadLengthIsError | internal/mcp/client.go:868-871 | so is a length that is no number, wherever it stands |
| McpFraming.StdioWriter.WriteStdioMessage | internal/mcp/client.go:691-697 | what is written is always the frames of the messages sent |
| McpFraming.StdioReader.ReadFrame | internal/mcp/client.go:849-881 | the line loop reads what the specified parser reads, with the same errors, and leaves the same rest |
| McpFraming.StdioReader.ReadLoop | internal/mcp/client.go:700-710 | hands on every body before the first error |
| Text.AtoiItoa | internal/mcp/client.go:849-881 | parsing a printed 64-bit number gives it back |
| McpEventStream.BlocksExact | internal/mcp/client.go:570-650 | the blocks and the tail put together are the lines, and none holds a blank line, so the batch reading is the only one |
| McpEventStream.ReadEventStreamResult | internal/mcp/client.go:570-650 | answers, and emits notifications, as the batch reading of the whole stream does; BatchMeans says how that is |
| McpEventMeaning.BatchMeans | internal/mcp/client.go:577-631 | the answer comes from the first block that has data, announces no endpoint and decodes to a message with the request's id: its error, or its result, or the empty result; without one it is how the stream ended; the notes are exactly the id-less messages with a method before it |
| McpEventMeaning.StreamRoundTrip | internal/mcp/client.go:730-758 | whatever events a server prints, with either line end, both readers find exactly them, in order |
| McpEventStream.ReadLoopSSE | internal/mcp/client.go:730-758 | hands on exactly the finished events |
| McpEventStream.SameSegmentation | internal/mcp/client.go:730-758 | both readers see the same events with data if and only if no data is left after the last blank line |
| McpEventStream.SameMessages | internal/mcp/client.go:760-773 | what answers or notifies in one reader is dispatched by the other, and what one takes for an endpoint or nothing the other skips |
| Telegram.ChunkTelegramText | internal/channels/telegram.go:137-171 | a long text is cut well: chunks concatenate to it, are non-empty and within the limit, each cut at the last newline inside the window, else the last space, else its end; the repair branch is dead |
| Telegram.WellCutUnique | internal/channels/telegram.go:137-171 | there is only one way to cut a text well |
| Telegram.TelegramAdapter.IsDuplicateUpdate | internal/channels/telegram.go:498-515 | rejects exactly the positive ids among the last W accepted; set and queue agree, without repetition and with at most W ids |
| Telegram.AcceptedDistinct | internal/channels/telegram.go:498-515 | any W + 1 consecutive accepted ids are pairwise distinct |
| Telegram.TelegramAdapter.AllowByRateLimit | internal/channels/telegram.go:484-496 | accepts exactly what the run of this user's readings accepts, and no other user is affected |
| Telegram.AcceptedSpaced | internal/channels/telegram.go:484-496 | whatever the clock does, the i-th and j-th accepted times differ by at least (j - i) intervals |
| Telegram.RateBound | internal/channels/telegram.go:484-496 | a closed interval of length T holds at most T / d + 1 acceptances |
| Telegram.TelegramAdapter.PollBatch | internal/channels/telegram.go:220-226 | moves the offset and lets through exactly the updates that are no duplicates |
| Telegram.PassedAreAccepted | internal/channels/telegram.go:220-226 | over batches, the positive updates let through are exactly the newly accepted ones, in order |
| Telegram.OffsetBounds | internal/channels/telegram.go:220-223 | the offset never decreases, passes every update, and lies right behind one of them or has not moved |
| ToolNaming.SanitizedIsName | internal/mcp/loader.go:304-328 | sanitizing gives nothing, or a name in [a-z][a-z0-9_]* that does not end in an underscore |
| ToolNaming.SanitizeIdempotent | internal/mcp/loader.go:304-328 | sanitizing twice is sanitizing once |
| ToolNaming.PlainNameLowered | internal/mcp/loader.go:304-328 | sanitizing only lowers the capitals of a plain name and takes white space off its ends |
| ToolNaming.BaseInOrder | internal/mcp/loader.go:149-156 | a base is prefix, server and tool in this order, with "mcp" and "server" for names with nothing to keep |
| ToolNaming.SanitizeName | internal/mcp/loader.go:304-328 | the rune loop computes the specified name |
| ToolNaming.UniqueToolName | internal/mcp/loader.go:330-343 | the unbounded search ends with an unused name: the base, or the candidate with the smallest free number |
| ToolNaming.FreshNameIsUnique | internal/mcp/loader.go:330-343 | the names taken and the base determine the name |
| ToolNaming.RegisterTool | internal/mcp/loader.go:149-178 | registers one tool under the fresh name of its own base |
| ToolNaming.RegisterAll | internal/mcp/loader.go:103-184 | the registry keeps every tool it had, every listed tool of the servers before a failure is added under a name of its own, in order, and the count is the sum of the servers' tool counts |
| ToolNaming.RunExtends | internal/mcp/loader.go:103-184 | naming in order makes all local names distinct, new and well formed, and overwrites nothing |
| ProfileLines.OneKey | internal/profile/store.go:141-149 | a line is the line of one key only, up to letter case, because keys have no colon |
| ProfilePatch.PatchUser | internal/profile/store.go:128-159 | the loop over patch lines computes the specified text, for any template expansion |
| ProfilePatch.SetTextBody | internal/profile/store.go:141-157 | one setting rewrites its lines in place, or adds one at the end, with the heading if there is none, or starts a blank profile |
| ProfilePatch.PatchShowsLast | internal/profile/store.go:128-159 | every line of a patched key shows the last value given for it, and there is such a line |
| ProfilePatchText.PatchRoundTrip | internal/profile/store.go:130-142 | a patch text gives back exactly the settings its lines give, in order, with any spacing and with colons in values; lines without a colon or key give nothing |
| ProfilePatchText.PatchTextShowsLast | internal/profile/store.go:128-159 | for a patch given as text, every line of a patched key shows the key and the last value the text gives for it |
| ProfilePatchText.NewKeyText | internal/profile/store.go:149-157 | the whole text after setting a new key: a blank profile is started over, a text without the heading gets it, and the line goes to the end |
| ProfilePatch.PatchCounts | internal/profile/store.go:128-159 | one line is added for each key that had none; no key's line is dropped or repeated |
| ProfilePatch.PatchKeepsOthers | internal/profile/store.go:128-159 | lines of other keys keep text and order; at most one heading is added |
| ProfilePatch.PatchIdempotent | internal/profile/store.go:128-159 | patching again changes nothing, byte for byte |
| ProfilePatch.NewKeyIdempotentIff | internal/profile/store.go:141-146 | dollar signs: a patch of one new key, applied again, changes nothing if and only if the template expansion leaves its label as it is |
| ProfilePatch.AppendTwice | internal/profile/store.go:77-87 | appending twice is appending both parts at once with a blank line between them |
| WorkspaceOnboarding.Workspace.IsWorkspaceNew | internal/workspace/files.go:174-184 | new exactly when neither a bootstrap file nor memory exists |
| WorkspaceOnboarding.Workspace.EnsureFile | internal/workspace/files.go:186-208 | adds a missing file with template or default content, never touches an existing one |
| WorkspaceOnboarding.Workspace.EnsureLayout | internal/workspace/files.go:58-92 | the loop adds exactly the wanted missing files and both directories, and records the seeding only when a file was added; a malformed state changes nothing |
| WorkspaceOnboarding.Workspace.GetStatus | internal/workspace/files.go:94-113 | reports times set, and for each bootstrap file whether it exists |
| WorkspaceOnboarding.Workspace.CompleteOnboarding | internal/workspace/files.go:115-133 | sets the missing times, removes at most BOOTSTRAP.md, and answers the status after that |
| WorkspaceOnboarding.AddedContent | internal/workspace/files.go:194-207 | an added file holds its template with a newline at its end, or a newline only |
| WorkspaceOnboarding.OneFileIsNotNew | internal/workspace/files.go:71-77 | BOOTSTRAP.md is added if and only if onboarding is not completed and the workspace was seeded, or had none of the files and no memory |
| WorkspaceOnboarding.CompletedSetsTimes | internal/workspace/files.go:120-128 | completing sets each time that was not set, also the seeding time |
| WorkspaceOnboarding.EnsuredSeeds | internal/workspace/files.go:84-89 | seeding is recorded exactly when a file was added to a workspace not seeded before |
| WorkspaceOnboarding.RunKeepsFiles | internal/workspace/files.go:58-133 | no run changes the content of an existing file, and removes one exactly when it is BOOTSTRAP.md and onboarding is completed with removal |
| WorkspaceOnboarding.TimesWriteOnce | internal/workspace/files.go:82-87 | both times are write-once over every run, and completion is recorded exactly by CompleteOnboarding |
| WorkspaceOnboarding.NeverRecreated | internal/workspace/files.go:71-77 | after completion no run writes BOOTSTRAP.md again |
| WorkspaceOnboarding.MalformedStops | internal/workspace/files.go:135-152 | with a malformed state file no run changes anything |
| WorkspaceOnboarding.SecondCall | internal/workspace/files.go:58-92 | a second layout changes something if and only if the workspace was neither new, seeded nor completed, lacked BOOTSTRAP.md and lacked another file; then it adds BOOTSTRAP.md only |
| WorkspaceOnboarding.ThirdCall | internal/workspace/files.go:58-92 | a third layout, with any options and clock, changes nothing |

## Left out

- White space and letter case are the ASCII ones; Unicode folding, invalid UTF-8 and its replacement are not modelled. `ToolNaming.LowerRune` adds the two non-ASCII runes that lower to ASCII letters; other runes become underscores either way.
- JSON encoding and decoding: a lossless codec in transcripts, a parameter in the event streams. Every write succeeds; files, processes, HTTP and logging are plumbing. A file standing where a directory has to be made, and a directory at BOOTSTRAP.md, are not modelled.
- FileStore: persistence is file I/O around the same map as InMemoryStore.
- SessionManager.RunKeepsInv: asks for fresh session ids and current caches at context appends; the stale case is characterised instead of excluded from the code.
- SessionHistory.HistoryPageFiltered: `start + limit` does not wrap at 64 bits; the gateway caps the limit at 500.
- SessionHistory.NextWalkShowsAll: over a history that does not grow during the walk and fits 64 bits; growth is the subject of AppendsKeepPages.
- McpProtocol.NextKeepsInv: the id counter and NumberId are not cut to 64 bits, and floats are exact reals.
- McpProtocol.NoLostWaiter: liveness of requests registered after failPending is not claimed, since readErr is never consulted; they wait for their context or Close.
- The raw-body fallthrough of postJSONRPC, ListTools paging, NDJSON framing, a nil stdin and the sseReady slot.
- McpEventStream.ReadEventStreamResult: context cancellation between lines is not modelled; any other failed read is an ending.
- Telegram.TelegramAdapter.AllowByRateLimit: times are integers, so the saturation of `time.Sub` is not modelled.
- Telegram.ChunkTelegramText: the number of chunks is not claimed to be minimal; the code also splits a last window that would fit.
- ToolNaming.RegisterAll: servers and tools come in the order given; the sorting before it is not modelled and the result holds for every order. Input schemas, clients and notifications are left out.
- ProfilePatch.PatchUser: the regular expression is modelled by its meaning on lines; the expansion of `$` in replacements is a parameter, and the results about whole patches are for patches without `$`. For one new key NewKeyIdempotentIff says exactly when an expansion does harm.
- patchIdentity: its `\s*` around the colon crosses newlines, so an empty value swallows the next line and the frame property is not what the code does.
- WorkspaceOnboarding.Workspace.EnsureLayout: the state file is one value, absent, malformed or parsed; other read errors count as malformed.
- Router, tool policy, configuration defaults, hub, skills, prompt building, proposal store and runtime dispatch: shallow single-branch code.
- WebSocket event order: sequence numbers are taken before the write lock, so wire order is no property of the code.
