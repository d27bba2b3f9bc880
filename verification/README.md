# Fob: a verified model

Fob serves one chat API in three wire formats (OpenAI chat, Claude messages, OpenAI Responses) and passes each
request to one of several upstream providers, failing over between hops and credentials. This project models its
bookkeeping core in Dafny and proves what that core is for. Run `dafny verify dfyconfig.toml`.

| module | models | main result |
|---|---|---|
| `ClaudeStream`, `ClaudeGrammar`, `ClaudeRuns`, `ClaudeReadings` | chat and Responses streams as Claude events | exactly which streams become one well-bracketed message, and what that message holds |
| `ResponsesStream`, `ResponsesEvents` | chat streams as Responses events, and the collected form | the events are a stateless reading of the chunks; exactly when stream and collected form agree |
| `CallsByIndex`, `MergedCalls` | tool calls by the index of their fragments | exactly when the streams give each call its own |
| `CursorTurn`, `TurnGuarantees`, `TurnText`, `TurnEndings` | a Cursor turn, callbacks one at a time | every turn is such a message, its blocks are the server's text, and its end is read off what came |
| `Channels` | the same turn under every interleaving | no panic, no late output, no deadlock, nothing lost |
| `ThinkFilter`, `ThinkTags`, `Connect` | incremental lexer and deframer | exactly which cuttings do not matter |
| `JsonText`, `Cch`, `CchForm` | the byte scanner that erases volatile parts of a body | scan and splice equal erasure on the syntax tree, and exactly when what is left is JSON |
| `CodexIds`, `CodexNames` | bounded renaming of item ids | injective, bounded, idempotent, terminating |
| `InlineRefs` | inlining of schema references | equal to substitution exactly when that is finite |
| `Aliases`, `AliasNames` | tool names aliased and restored | exactly when restoring undoes aliasing |
| `RoundTrip`, `ResponsesTrip`, `RequestShapes` | request translation and back | the canonical form of every conversation, which are unchanged, and what the requests are |
| `Failover`, `Routing`, `Slugs` | the failover walk, its order, source names | which pairs are tried, one owner a model id |

Where the source updates variables, the model does: objects whose methods change fields are classes, loops are
loops, and each method is tied to a function on values about which the properties are proved as lemmas.
`Chat`, `Json`, `Decimal`, `Strings` and `Sequences` hold what several modules share. Every lemma turns automatic
induction off: each proof is the one that is written.

Results where the code does less than one would expect, each with its exact condition:

- An object that ends in two or more excluded members behind one that is kept is left with a comma before its closing
  brace, so the normal form is no JSON text (`CchForm.NormalFormIsText`, `CchForm.CommaBeforeBrace`).
- Text whose thinking tag has a blank before `>` is read differently when the piece ends at that blank
  (`ThinkFilter.ChunkInvariance`).
- Frames stay undelivered once 2^32 bytes are held at one push, since that length is truncated to 32 bits; a longer stream
  in smaller reads is deframed (`Connect.DeframesIffFits`, `Connect.SmallReadsDeframe`).
- A turn with both text and a tool call tells a Responses client the text when streamed and drops it when
  collected (`ResponsesStream.StreamAgreesWithWhole`).
- A tool-argument fragment that arrives after text or thinking was opened reaches no block, and one for an earlier
  call goes into the block of the last call (`CallsByIndex.BlocksHoldCallsByIndex`,
  `CallsByIndex.StrayArgumentsAreDropped`, `CallsByIndex.LateArgumentsGoToTheLastCall`).
- A resumed turn that ends with a tool call does not flush the thinking filter and can lose the end of its text
  (`TurnText.TurnTellsItsText`, `TurnText.ResumedCallLosesText`).
- Text that comes after the end of a turn is remembered for the conversation but told to nobody
  (`TurnText.LateTextIsRememberedOnly`).
- A server tool that is called like a client tool is renamed to that tool's alias, so the two still share a name
  (`Aliases.AliasedNamesAreDistinct`).
- The caller that collects chunks reads them when `done` is closed, which can be before the last cleared chunk is
  appended (`Channels.FinalIffNoneInFlight`).
- An assistant's images come back from Claude's form in Claude's shape, and system messages are gathered in front
  (`RoundTrip.ThroughClaudeIsCanonical`).

## Model

| member | source | states |
|---|---|---|
| Connect.FrameConnect | internal/provider/cursor/connect.go:10-18 | the array filled in place holds flags, the big-endian 32-bit length and the payload |
| Connect.FrameLayout | internal/provider/cursor/connect.go:10-16 | a frame is its flags, four bytes of length with the highest first, and its payload |
| Connect.EndIsTheSecondBit | internal/provider/cursor/connect.go:8-38 | a frame goes to onEnd if and only if bit 2 of its flags is set |
| Connect.FrameParser.Push | internal/provider/cursor/connect.go:20-40 | one call: the events it delivers and the bytes it keeps are those of draining old bytes plus new, with the 32-bit sum that may wrap and the slice that may then be out of range |
| Connect.CuttingInvariance | internal/provider/cursor/connect.go:20-40 | however long the stream: as long as fewer than 2^32 bytes are held at each push, feeding pieces equals reading their concatenation without a width, whatever was pending, until a panic |
| Connect.CuttingIsOnePush | internal/provider/cursor/connect.go:20-40 | so any cutting of fewer than 2^32 bytes equals one push of them all |
| Connect.DeframesIffFits | internal/provider/cursor/connect.go:10-40 | one cutting of the framed bytes, of any total length, delivers exactly the frames, in order, end-flagged ones to onEnd, and keeps nothing, if and only if every frame is shorter than 2^32 bytes and so is what is held at each push |
| Connect.SmallReadsDeframe | internal/provider/cursor/connect.go:10-40 | so a stream of any length is deframed when each read is at most 2^32 less its longest frame |
| Connect.DeframingUndoesFraming | internal/provider/cursor/connect.go:10-40 | and every cutting at all is deframed if and only if the whole stream is shorter than 2^32 bytes |
| Connect.PendingIsUnfinishedSuffix | internal/provider/cursor/connect.go:20-40 | in the middle of a delivery of any length, under the same condition, the kept bytes are exactly the part of the unfinished frame |
| Connect.OversizeNeverDrains | internal/provider/cursor/connect.go:22-27 | 2^32 held bytes or more, whose length is truncated, are never emptied |
| Connect.OverfullStays | internal/provider/cursor/connect.go:22-27 | once 2^32 bytes are held, they are held to the end, whatever comes after, or the parser panics |
| ThinkFilter.ThinkingFilter.Process | internal/provider/cursor/think.go:20-50 | what one call emits and buffers is the reference reading of buffer plus piece up to the held-back suffix |
| ThinkFilter.ThinkingFilter.Flush | internal/provider/cursor/think.go:52-62 | the held text goes to the current mode and the buffer empties |
| ThinkFilter.Collect | internal/provider/cursor/think.go:20-62 | a whole turn through the class collects exactly what the pure run gives |
| ThinkFilter.RunIsScan | internal/provider/cursor/think.go:20-62 | any cutting of text whose tags have no blank before the closing bracket is read as the reference reads the whole |
| ThinkFilter.WholeIsScan | internal/provider/cursor/think.go:20-62 | one call and a flush read every text as the reference does, blanked tags included |
| ThinkFilter.ChunkInvariance | internal/provider/cursor/think.go:13-62 | every cutting gives the same content and reasoning as one call, if and only if no tag has a blank before its closing bracket |
| ThinkFilter.BlankTagBreaks | internal/provider/cursor/think.go:13-50 | each blanked tag has a cutting that loses it as a tag: the piece that ends just before the bracket is not held back |
| ThinkFilter.EveryCharacterAccounted | internal/provider/cursor/think.go:20-62 | each character goes to content, to reasoning or to a tag, and each of the three, picked out in order, is what the filter emits or removes |
| ThinkTags.TagsAre | internal/provider/cursor/think.go:8-9 | which texts are tags: an angle bracket, a slash in closing ones, one of the five names in any case, blanks, a bracket |
| ThinkTags.TagsSetTheMode | internal/provider/cursor/think.go:30-37 | behind an opening tag the reading goes on as reasoning, behind a closing one as content |
| ThinkTags.HeldBackIs | internal/provider/cursor/think.go:38-40 | a suffix is held back if and only if it has fewer than 16 characters and is an angle bracket, a slash or none, and letters |
| Cch.Scanner.ParseValue | internal/provider/claude/cch.go:205-233 | at a value of the tree the scanner ends where the value ends and adds exactly its edits, in scan order |
| Cch.Scanner.ParseObject | internal/provider/claude/cch.go:235-286 | the same for objects: excluded members, collected "model" contents and everything nested |
| Cch.Scanner.ParseArray | internal/provider/claude/cch.go:288-307 | the same for arrays |
| Cch.Scanner.ParseString | internal/provider/claude/cch.go:309-328 | finds the unescaped closing quote of a string literal |
| Cch.Scanner.AddExcluded | internal/provider/claude/cch.go:330-351 | the edits of the excluded runs with the comma each takes along, by its four cases |
| Cch.SameEdits | internal/provider/claude/cch.go:235-357 | the edits in the order the scanner adds them are a permutation of the holes of the text from left to right |
| Cch.CutsValue | internal/provider/claude/cch.go:330-407 | cutting the holes of a value out of its text leaves the erased value |
| Cch.CutsText | internal/provider/claude/cch.go:378-407 | the holes of a whole text are non-empty, inside the text and disjoint, and cutting them leaves the erased text |
| Cch.SortByStart | internal/provider/claude/cch.go:390-395 | the in-place insertion sort: sorted by start and a permutation |
| Cch.SortedPermutation | internal/provider/claude/cch.go:390-395 | sorting any permutation of disjoint holes gives the holes in text order |
| Cch.Splice | internal/provider/claude/cch.go:396-406 | sorted disjoint edits are cut out without an error |
| Cch.Normalize | internal/provider/claude/cch.go:378-407 | an invalid body is refused; every valid one is accepted and gives the text of its tree with excluded members and "model" contents erased |
| Cch.AlikeTextsNormaliseAlike | internal/provider/claude/cch.go:330-407 | texts that differ only in the erased values have one normal form |
| CchForm.NormalFormIsPruned | internal/provider/claude/cch.go:330-407 | unless an object ends in two or more excluded members behind one that is kept, the normal form is the text of the tree without the excluded members (max_tokens, fallbacks, fallback_credit_token) and with empty model strings, and is its own normal form |
| CchForm.ObjectsKeepTheRest | internal/provider/claude/cch.go:254-286 | that tree keeps in each object exactly the other members, in order, each with its own value |
| CchForm.NormalFormIsText | internal/provider/claude/cch.go:330-351 | the normal form of a JSON text is a JSON text if and only if no object ends so; otherwise a comma is left before a closing brace |
| CchForm.CommaBeforeBrace | internal/provider/claude/cch.go:341-343 | which comma: the one behind the last member kept |
| ClaudeStream.ClaudeOpenBlock | internal/translate/reasoning.go:98-116 | state and events of opening a block: the live one is closed unless it is of the same kind |
| ClaudeStream.ClaudeCloseBlock | internal/translate/reasoning.go:118-125 | closes the live block and leaves the block index where it is |
| ClaudeStream.ClaudeFinishBlocks | internal/translate/reasoning.go:127-135 | closes what is live and makes an empty text block if nothing was ever opened |
| ClaudeStream.ClaudeOpenTool | internal/translate/reasoning.go:137-150 | every tool gets a block and an id of its own |
| ClaudeStream.EmitChatToolsToClaude | internal/translate/reasoning.go:195-213 | the loop over one delta equals running its open and fragment actions |
| ClaudeStream.GrokStreamToClaude | internal/translate/claude_messages.go:328-369 | one chat chunk: events and new state are those of its actions |
| ClaudeStream.CodexStreamToClaude | internal/translate/claude_messages.go:371-410 | one Responses event: events and new state are those of its actions |
| ClaudeStream.TranslateChatStream | internal/proxy/proxy.go:179-205 | that loop for a chat upstream and a Claude client, who gets no closing line: its events are those of all the chunks' actions run from an empty state, and it is recorded as ok if the state then is finished without an error |
| ClaudeStream.TranslateResponsesStream | internal/proxy/proxy.go:179-205 | the same for a Responses upstream: the started flag the method keeps is the one that decides which response.created starts the message |
| ClaudeRuns.ChatEndsWell | internal/proxy/proxy.go:197-205 | a drained chat stream is recorded as ok if and only if some chunk finishes it and none finishes it with an error |
| ClaudeRuns.ResponsesEndsWell | internal/proxy/proxy.go:197-205 | a drained Responses stream is if and only if response.completed came |
| ClaudeGrammar.TranscriptIffDisciplined | internal/translate/reasoning.go:98-160 | the events of any actions are message_start, blocks numbered 0,1,2,… each opened and closed once with only its own deltas inside, message_delta, message_stop, if and only if the actions start once, finish once and say nothing after |
| ClaudeGrammar.DisciplinedRun | internal/translate/reasoning.go:98-160 | the message rendered is the one built from the actions by a structural reading that knows no state |
| ClaudeRuns.ChatStreamIsMessage | internal/translate/claude_messages.go:328-369 | a chat stream becomes such a message if and only if it has one terminal chunk and only silent chunks after it |
| ClaudeRuns.ResponsesStreamIsMessage | internal/translate/claude_messages.go:371-410 | a Responses stream does if and only if response.created comes first and one completion ends what is said |
| ClaudeReadings.ChatStops | internal/translate/reasoning.go:250-258 | the first and the last two events of a chat stream that ends once: the stop reason is "tool_use" if the finish reason is "tool_calls" or a call was named, and then there is a tool block; else "max_tokens" for "length"; else "end_turn" |
| ClaudeReadings.ResponsesStops | internal/translate/reasoning.go:250-258 | of a Responses stream: "tool_use" if and only if a call item was added, else "end_turn" |
| ClaudeReadings.ChatIsToldInOrder | internal/translate/claude_messages.go:344-358 | text and thinking deltas are those of the chunks one for one, in each chunk the reasoning first; a message that says and calls nothing is one empty text block |
| ClaudeReadings.ResponsesAreToldInOrder | internal/translate/claude_messages.go:371-410 | text and thinking deltas are those of the Responses events, in order |
| ClaudeRuns.NothingSaidIsLost | internal/translate/reasoning.go:98-160 | text and thinking deltas, joined over the blocks, are what the actions said |
| ClaudeRuns.MessageCarriesUpstream | internal/translate/claude_messages.go:344-358 | text blocks hold the upstream content and thinking blocks the upstream reasoning |
| ClaudeRuns.CallsKeptIffNoneStrays | internal/translate/reasoning.go:152-213 | the tool blocks hold the calls in order of arrival, each fragment added to the last call opened, if and only if none arrives while a block of another kind is live; such a fragment goes nowhere |
| ClaudeRuns.MessageCarriesCalls | internal/translate/reasoning.go:152-213 | the same for whole messages |
| CallsByIndex.BlocksHoldCallsByIndex | internal/translate/reasoning.go:152-213 | for calls opened with ids at successive indices and fragments that name a call already opened: the tool blocks hold each call with exactly the fragments of its index if and only if every argument fragment carries the index of the last call opened and nothing was said since |
| CallsByIndex.BlocksFollowIndex | internal/translate/reasoning.go:152-213 | with no such condition: the blocks hold the calls by index after every piece of the stream if and only if each entry is in place when it comes |
| CallsByIndex.LateArgumentsGoToTheLastCall | internal/translate/reasoning.go:195-213 | arguments that come for the first of two opened calls go into the block of the second |
| CallsByIndex.StrayArgumentsAreDropped | internal/translate/reasoning.go:152-213 | a stream of one call, a text and then its arguments: the block of the call stays empty although by index the arguments are its own |
| CallsByIndex.CrossedArgumentsMakeUp | internal/translate/content.go:218-254 | with fragments for calls not yet opened the end can agree although no fragment was for the last call |
| ClaudeRuns.MessageCarriesEvents | internal/translate/claude_messages.go:371-410 | of a Responses stream, the text blocks hold the text and the thinking blocks the reasoning |
| ClaudeRuns.MessageCarriesEventCalls | internal/translate/claude_messages.go:371-410 | its tool blocks hold each added call with the arguments that follow it if and only if nothing is said between a call and its arguments |
| ClaudeRuns.ResponsesMessage | internal/translate/claude_messages.go:371-410 | the events sent are the rendering of that message, with the id of response.created or a generated one |
| ClaudeRuns.CutsDoNotMatter | internal/translate/claude_messages.go:344-358 | cutting a text, thinking or argument delta in two changes only where deltas end, never a block |
| ResponsesStream.EmitChatToolsToResponses | internal/translate/reasoning.go:162-193 | one delta: call items, argument events and the state kept for the final output |
| ResponsesStream.GrokStreamToResponses | internal/translate/openai_responses.go:253-287 | one chat chunk: events and new state |
| ResponsesEvents.StreamIsNarration | internal/translate/openai_responses.go:253-287 | all events of a stream are one response.created and then what a reference without any stream state tells of the chunks |
| ResponsesEvents.ClientIsToldEverything | internal/translate/openai_responses.go:253-287 | so the client reads the content in the text deltas, the reasoning in both reasoning deltas, each call with its arguments, and a completion for every finish reason, "failed" if and only if that is "error", with everything said and called so far |
| ResponsesStream.MergeToolCallDeltas | internal/translate/content.go:218-254 | deltas merged into the slots of their indices, padding between, appended when they have none |
| MergedCalls.MergedByIndex | internal/translate/content.go:218-254 | for fragments with indices: one call for each index up to the highest, with the last id and name its own fragments give and all their arguments |
| ResponsesStream.CollectNonStream | internal/provider/cursor/protocol.go:919-960 | the chunk list collected into one message, whose text is dropped when there are calls, with status 502 for an error |
| ResponsesStream.GrokToResponses | internal/translate/openai_responses.go:175-205 | the output items of a whole chat message |
| ResponsesStream.OrderlyCallsAgree | internal/translate/content.go:218-254 | for fragments in index order with ids, merging by index gives the same calls as appending to the last |
| CallsByIndex.StreamedCallsByIndex | internal/translate/content.go:218-254 | for such calls and fragments, appending to the last call gives the calls by index if and only if every argument fragment carries the last call's index |
| CallsByIndex.StreamAgreesByIndex | internal/translate/openai_responses.go:175-287 | for the same streams: stream and collected message agree if and only if there is text or calls but not both, and every argument fragment carries the last call's index |
| ResponsesStream.StreamAgreesWithWhole | internal/translate/openai_responses.go:175-287 | for orderly streams, the output of response.completed equals the output of the collected message if and only if the turn has text or calls but not both and not neither |
| CursorTurn.TurnRuntime.EmitAssistantText | internal/provider/cursor/protocol.go:962-968 | the text is recorded and emitted, nothing for the empty text |
| CursorTurn.TurnRuntime.AppendAssistantText | internal/provider/cursor/protocol.go:970-982 | text extends the last text step or makes a new one |
| CursorTurn.TurnRuntime.Text | internal/provider/cursor/protocol.go:547-559 | server text through the tag filter: reasoning, then content |
| CursorTurn.TurnRuntime.Exec | internal/provider/cursor/protocol.go:560-597 | a tool call: in a first turn the filter is flushed first and the finish comes in its own chunk; in a resumed turn (lines 807-826) neither |
| CursorTurn.TurnRuntime.Closed | internal/provider/cursor/protocol.go:637-690 | closing: which message, if any, and which finish reason |
| CursorTurn.TurnRuntime.Dispatch | internal/provider/cursor/protocol.go:540-690 | any callback, as the closures of runStream and resumeTools react to it; what that makes of whole turns is stated of `TurnEndings` |
| TurnGuarantees.EveryTurnEndsWell | internal/provider/cursor/protocol.go:504-690 | whatever callbacks come, at most one finish reason and only choice-less chunks after it; exactly one when the turn ends without being cancelled |
| TurnGuarantees.AllFewFragments | internal/provider/cursor/protocol.go:560-597 | a turn has at most one tool fragment, at index 0 and with an id |
| TurnGuarantees.EveryTurnIsAMessage | internal/provider/cursor/protocol.go:504-690 | so every such turn reaches a Claude client as one well-bracketed message |
| TurnGuarantees.EveryTurnStreamsAsCollected | internal/provider/cursor/protocol.go:504-690 | and a Responses client gets from the stream what it would get whole, if and only if the turn has text or a call but not both |
| TurnEndings.TurnEndsByItsCallbacks | internal/provider/cursor/protocol.go:504-690 | the finish reason, error text, usage chunk and chunk ids of a turn, read off its callbacks: a first turn that is closed stops if and only if the server said it was over (internal/provider/cursor/kvexec.go:333) and the close is clean or a checkpoint came afterwards, a resumed one (lines 749-858) if either holds; a call gives "tool_calls", everything else "error" |
| TurnEndings.TurnIsExactly | internal/provider/cursor/protocol.go:504-690 | all chunks of a turn, one by one: what its texts told, the thinking before the content, and then its ending |
| TurnEndings.CancelSilences | internal/provider/cursor/protocol.go:693-701 | a cancelled turn sends no finish reason and nothing more |
| TurnEndings.TurnReadWhole | internal/provider/cursor/protocol.go:919-960 | a turn collected into one message: its call or its text, its reasoning, its finish reason and its status |
| TurnEndings.TurnIsTextThenCall | internal/provider/cursor/protocol.go:560-597 | the conversation remembers a turn as one step of text, if it said any, and its call, if it made one |
| TurnText.ClientGetsTheCall | internal/provider/cursor/protocol.go:560-597 | the tool blocks of the Claude client are exactly the one call of the exec callback that ended the turn, with its id, name and arguments, or none if something else ended it, whatever callbacks come after |
| TurnText.EveryTurnHoldsItsCall | internal/provider/cursor/protocol.go:504-690 | for any callbacks at all without a cancel: the tool blocks of a finished turn hold the calls by index of its chunks |
| TurnText.TurnTellsItsText | internal/provider/cursor/protocol.go:547-690 | the chunks carry the remembered text and then the error text; all text read by the filter is told and remembered if and only if the ending flushes the filter or it holds back none |
| TurnText.LateTextIsRememberedOnly | internal/provider/cursor/protocol.go:962-982 | callbacks after the end tell nothing, but their text is still remembered: the conversation remembers what was told, error text aside, if and only if they bring none |
| TurnText.ResumedCallLosesText | internal/provider/cursor/protocol.go:807-826 | a resumed turn that ends with a call while the start of a possible tag is held back loses that text |
| TurnText.ClientReadsServerText | internal/provider/cursor/protocol.go:540-690 | end to end: the text and thinking blocks of the Claude client are the reference reading of the server text, however it was cut |
| Channels.NoPanicNoLateOutput | internal/provider/cursor/protocol.go:489-537 | over all interleavings of any number of callbacks: no send on the closed channel, no second close, and nothing from an emit begun after done is ever appended, sent or received |
| Channels.DrainedReaderHasAll | internal/provider/cursor/protocol.go:489-537 | a reader that drains the closed channel has every appended chunk in order |
| Channels.NoDeadlock | internal/provider/cursor/protocol.go:489-537 | while any callback is busy some callback or the reader can go on |
| Channels.SealedForGood | internal/provider/cursor/protocol.go:489-499 | once finish holds the lock nothing is appended or sent any more |
| Channels.FinalIffNoneInFlight | internal/provider/cursor/protocol.go:504-520 | the chunk list read when done is closed is final if and only if no emit stands between its check and its append |
| Channels.DoneOvertakesAnEmit | internal/provider/cursor/protocol.go:490-520 | such a state is reached: closing done overtakes an emit that already passed its check |
| CodexIds.Probe | internal/provider/codex/sanitize.go:211-216 | the probe stops within |occupied| + 1 tries at the first free name |
| CodexIds.CollectIDs | internal/provider/codex/sanitize.go:174-192 | the first loop: the ids that stay and the names in use |
| CodexIds.SanitizeInputIDs | internal/provider/codex/sanitize.go:169-242 | both loops compute the renaming function |
| CodexIds.RenamingIsInjectiveAndBounded | internal/provider/codex/sanitize.go:169-283 | kept items in order with only ids changed, every id within 64 and with its kind's prefix, clean ids untouched, and one name for two items if and only if their ids and their normalised ids are equal |
| CodexNames.NamesInFull | internal/provider/codex/sanitize.go:21-27 | what goes out and under which name: an item of encrypted reasoning with an id over 64 characters does not; any other has the id behind the prefix of its kind, if that fits and is no other item's id, and else the first hashed name of it that is not in use (lines 169-283) |
| CodexIds.FixedIffClean | internal/provider/codex/sanitize.go:169-242 | an input is left alone if and only if every id is empty or prefixed and within the limit |
| CodexIds.RenamingIsIdempotent | internal/provider/codex/sanitize.go:169-242 | a second pass, even with another digest, changes nothing |
| CodexIds.NormalInjective | internal/provider/codex/sanitize.go:256-265 | prefixing never makes two different ids equal |
| InlineRefs.Walker.Walk | internal/provider/grok/sanitize.go:635-680 | the closure with its mutable seen set: gives the walk and leaves seen as it found it, terminating on every schema |
| InlineRefs.Inline | internal/provider/grok/sanitize.go:625-682 | the whole function |
| InlineRefs.ReferencesAreFollowed | internal/provider/grok/sanitize.go:646-668 | one reference: the definition of that name, walked, with the siblings over its fields, unwalked; an empty object inside that definition; the siblings alone without one |
| InlineRefs.OtherObjectsAreWalked | internal/provider/grok/sanitize.go:670-678 | any other object loses its $defs and definitions and has its other fields walked |
| InlineRefs.WhichDefinitions | internal/provider/grok/sanitize.go:630-633 | the definitions are those of the root's $defs, or of definitions if that has none |
| InlineRefs.InliningIsSubstitution | internal/provider/grok/sanitize.go:625-682 | no cut is met if and only if the references unfold finitely, and then the result is the plain unfolding |
| InlineRefs.CompleteIffClear | internal/provider/grok/sanitize.go:625-682 | no local reference is left, and a second inlining changes nothing, if and only if every sibling that shows is plain: following references, one not covered by a sibling of an outer reference |
| InlineRefs.InliningIsComplete | internal/provider/grok/sanitize.go:625-682 | so in particular with plain siblings at every reference, cyclic or not |
| InlineRefs.SiblingsAreCopiedUnwalked | internal/provider/grok/sanitize.go:661-668 | a sibling that is not plain stays in the result: the condition is needed |
| InlineRefs.FixedIffPlain | internal/provider/grok/sanitize.go:625-682 | a schema is left alone if and only if it has no local reference and no table of definitions |
| Aliases.Semantic | internal/provider/claude/mcp.go:146-169 | the loop computes the cleaned name, within its length and never empty |
| Aliases.Allocate | internal/provider/claude/mcp.go:107-122 | the first free candidate in circular word order, or none |
| Aliases.AliasClaudeTools | internal/provider/claude/mcp.go:22-56 | the loops compute aliased body and reverse map |
| Aliases.CandidateIsMcpName | internal/provider/claude/mcp.go:98-169 | every candidate is an MCP name of at most 64 plain characters |
| AliasNames.AliasReads | internal/provider/claude/mcp.go:124-169 | an alias in full: mcp__, two words, a word and the original's words as far as they fit, joined by underscores and trimmed, or "tool" |
| AliasNames.FirstFreeIsAllocated | internal/provider/claude/mcp.go:107-122 | the alias allocated is the first candidate that is not in use |
| AliasNames.NamesInUse | internal/provider/claude/mcp.go:22-46 | in use are the names declared and the aliases made so far |
| AliasNames.WhichToolsAreAliased | internal/provider/claude/mcp.go:88-105 | with enough words the loop leaves a tool as it is if and only if it runs on the server by its type, has no name or an MCP name |
| AliasNames.OnlyNamesAreReplaced | internal/provider/claude/mcp.go:180-198 | at every path of the body: a string in a field name or tool_name is replaced if it is a name to replace, and nothing else changes |
| Aliases.AliasesAreDistinct | internal/provider/claude/mcp.go:22-46 | after the loop over the tools, aliases are undeclared, of MCP form, pairwise distinct, and lead back to their own tool's name |
| Aliases.AliasedNamesAreDistinct | internal/provider/claude/mcp.go:22-56 | after the renaming of the whole body, with no more tools than words: no client tool shares its name with another tool if and only if no tool that keeps its name, a server tool say, was called like one that was aliased |
| Aliases.RestoreUndoesAliasing | internal/provider/claude/mcp.go:22-86 | restoring the aliased body gives the original if and only if no name field already held one of the aliases made |
| Aliases.RestoreUndoesAliasingOfOthers | internal/provider/claude/mcp.go:22-86 | in particular every body none of whose name fields begins with this server's alias prefix |
| Aliases.RoundTrip | internal/provider/claude/mcp.go:58-86 | the same for any tree and any two inverse renamings |
| Aliases.AllocationSucceeds | internal/provider/claude/mcp.go:107-122 | allocation succeeds while fewer MCP names are reserved than there are words |
| Aliases.EveryToolIsAliased | internal/provider/claude/mcp.go:31-46 | with no more tools than words every client tool is aliased or needs no alias |
| Aliases.AliasingTwiceIsAliasing | internal/provider/claude/mcp.go:22-56 | aliasing an aliased body changes nothing |
| Failover.Send | internal/proxy/proxy.go:125-163 | all calls made are for this pair and the answer that counts is its last execution's, with the credential returned; a second execution comes two calls after the first, after a 401 and a refresh that gave its credential; a single 401 stands only if the refresh after it failed |
| Failover.Proxy | internal/proxy/proxy.go:91-237 | the nested loops compute the walk; the status is 200, the last answer's with 502 for 0 (lines 41-44 of internal/proxy/fail.go), or that of the skipped hop, and one usage event is recorded, ok exactly when what was served was a whole body or left a state that is finished without an error, charged to the hop that answered or to the last, and none when the vault fails |
| Failover.WalkStopsAtFirstDecision | internal/proxy/proxy.go:97-217 | pairs are visited in chain order up to the first success or non-retryable failure; who is served, refused or left follows from the last answer and the last hop |
| Failover.EveryPairIsOffered | internal/proxy/proxy.go:97-130 | the pairs on offer are every credential of every hop allowed and available, in order, up to a usable hop whose credentials cannot be listed |
| Failover.PairsBeginWithTheirCredential | internal/proxy/proxy.go:126-147 | the first call for a pair is with its own credential: a refresh if it is near its expiry, and then its execution with what that gave |
| Failover.UsageIsCharged | internal/proxy/proxy.go:204-235 | the usage event: the hop of the last visit, ok if and only if that was answered well and what it served ended well; or a failure of the last hop; or none |
| Failover.LeftMeansLastHopSkipped | internal/proxy/proxy.go:97-237 | leaving the loop means the last hop was skipped: status 403 or 503, so the repair of status 0 never runs |
| Failover.CallsAreDisciplined | internal/proxy/proxy.go:97-163 | no call at a disallowed or unavailable hop; a second execution only two calls after the first, after a 401 and a successful refresh, with the refreshed credential; never a third |
| Routing.PickCredentials | internal/proxy/proxy.go:356-409 | the loops give the eligible list with the preferred one first |
| Routing.ArrangingKeepsAll | internal/proxy/proxy.go:384-408 | the result is a permutation of a list if and only if at most one credential has the preferred id; it comes first and the rest keep their order |
| Routing.PickingKeepsAll | internal/proxy/proxy.go:356-409 | so, ids being unique in the vault, picking gives a permutation of the eligible list with the preferred one first |
| Routing.CursorAccountsFirst | internal/proxy/proxy.go:371-381 | Cursor offers every credential once, accounts before API keys |
| Routing.NativeModelsGoHome | internal/proxy/proxy.go:441-484 | which provider serves which model: claude- Claude, gpt-, o1, o3 and o4 Codex, grok- Grok, with Cursor behind if it is connected and has the model, behind Grok only with that failover on; a provider's name goes to it, any other model to the executor that lists it |
| Routing.CursorModelsGoToCursor | internal/proxy/proxy.go:424-440 | a model asked of Cursor or its own goes there under its restored name, with the native model behind a name with grok in it, if that failover is on and its provider connected; nowhere if Cursor is not connected |
| Routing.OpenCodeModelsGoThere | internal/proxy/proxy.go:411-417 | opencode/ models go there or nowhere |
| Routing.ChainsAreShort | internal/proxy/proxy.go:411-487 | a chain has at most two hops, and of two exactly one is Cursor |
| Routing.SourceModelHasOneCredential | internal/proxy/proxy.go:356-370 | a model a source owns goes to the sources alone and there to that source's credential alone |
| Routing.PrefixesAreNotCaptured | internal/proxy/proxy.go:411-425 | no source captures a cursor/ or opencode/ id |
| Slugs.Slugify | internal/provider/openai/source.go:47-65 | the loop computes the slug |
| Slugs.SlugShowsWords | internal/provider/openai/source.go:47-85 | the slug is the name's words with one dash between them as far as they fit in 48 characters, behind "s-" if they begin with a digit, "src" if there are none |
| Slugs.ClipSlug | internal/provider/openai/source.go:67-85 | any text is made into a valid slug |
| Slugs.FindUniqueSlug | internal/provider/openai/source.go:116-142 | the search loop computes the unique slug |
| Slugs.UniqueSlugIsFresh | internal/provider/openai/source.go:116-142 | always valid and unreserved, and not in use while there are fewer than 99,000 sources |
| Slugs.UniqueSlugIsFirstFree | internal/provider/openai/source.go:116-142 | a free slug is taken as it is, behind "src-" if it is reserved; one in use gets the first number from 2 on that makes it free |
| Slugs.EveryHistoryIsSound | internal/provider/openai/source.go:116-142 | over every history of adding and removing, slugs stay valid, unreserved and pairwise distinct |
| Slugs.ModelHasOneOwner | internal/proxy/proxy.go:494-503 | a model id matches at most one source |
| Slugs.StripUndoesPublic | internal/provider/openai/source.go:172-190 | stripping undoes publishing if and only if the id is trimmed and not empty |
| Slugs.PublicIDComesHome | internal/provider/openai/source.go:172-190 | a published id is owned by its source and gives back the model id |
| RoundTrip.OpenAIContentToClaude | internal/translate/content.go:9-37 | the loop over content parts |
| RoundTrip.ImageURLComesBack | internal/translate/content.go:94-152 | an image URL taken to Claude's shape and back is the same URL |
| RoundTrip.OpenAIChatToClaude | internal/translate/openai_chat.go:7-67 | the message loop: gathered system and Claude messages |
| RequestShapes.ClaudeRequestIs | internal/translate/openai_chat.go:7-67 | the request in itself: the system content in order in one field; one message in its role for each other message; an assistant's with its thinking, then its content in order, then one tool_use a call with its id, name and arguments |
| RequestShapes.ThinkingFirstCallsLast | internal/translate/openai_chat.go:42-64 | in every message a thinking block stands first or nowhere, and no block follows a call but calls |
| RoundTrip.ClaudeToGrok | internal/translate/claude_messages.go:13-85 | the message loop back |
| RequestShapes.ChatRequestIs | internal/translate/claude_messages.go:13-85 | the messages made of Claude's, each in turn: an assistant's calls, thinking and other parts in order; a user's results one message each, or what the message shows |
| RoundTrip.ThroughClaudeIsCanonical | internal/translate/openai_chat.go:7-67 | every conversation comes back from Claude's form as one system message with all system texts, then each other message in its canonical form |
| RoundTrip.UnchangedIffCanonical | internal/translate/openai_chat.go:7-67 | the round trip is the identity if and only if the conversation is canonical |
| RoundTrip.ThroughClaudeTwice | internal/translate/claude_messages.go:13-85 | a second round trip changes nothing |
| ResponsesTrip.OpenAIPartsToResponses | internal/translate/openai_chat.go:484-502 | the loop over content parts |
| ResponsesTrip.OpenAIChatToCodex | internal/translate/openai_chat.go:129-179 | the message loop: instructions and input items |
| RequestShapes.CodexRequestIs | internal/translate/openai_chat.go:129-179 | the input in itself: for each message in turn its reasoning, its content in order under its role, its calls, or its output |
| ResponsesTrip.ResponsesContentToOpenai | internal/translate/openai_chat.go:504-531 | texts run together, images behind them |
| ResponsesTrip.ResponsesToGrok | internal/translate/openai_responses.go:13-48 | the item loop back |
| RequestShapes.ResponsesRequestIs | internal/translate/openai_responses.go:13-48 | each item becomes one message of its role, its texts together or before its images |
| ResponsesTrip.ThroughResponsesSplits | internal/translate/openai_chat.go:129-179 | every conversation comes back as its joined instructions, then each message split into reasoning, content and one message a call |
| ResponsesTrip.ThroughResponsesKeepsCalls | internal/translate/openai_responses.go:13-48 | no tool call is lost, added or moved |
| ResponsesTrip.ThroughResponsesTwice | internal/translate/openai_responses.go:13-48 | a second round trip changes nothing if and only if no assistant message consists of empty text parts alone |

## Left out

- Network I/O, TLS, OAuth, the HTTP/2 bridge, SQLite, panel pages, logging, prices and the large model-name tables.
- Protobuf bodies, HMAC, SHA-256 and base64: the digests are function parameters, and a Cursor turn starts from
  decoded callbacks. The verdict of json.Valid on a body is a parameter of `Cch.Normalize`, and reading and
  printing JSON arguments is the parameter `Codec` of `RoundTrip`.
- Server-sent-event text: events are values, and usage counters are not carried.
- Byte lengths of names: strings are sequences of characters, so limits the code counts in bytes are counted in
  characters, and case folding and blanks are those of ASCII (with U+0085 and U+00A0 for trimming).
- Maps edited in place (`rec["name"] = alias`, `renameDeep`, `body["input"] = …`): modelled as new values, so
  aliasing between parts of one request is not captured.
- Messages whose fields have unexpected JSON types: chat and Claude messages are typed values, null content is an
  empty list of parts, and chat roles other than system, tool and assistant count as user.
- claudeToCodex, responsesToClaude, claudeStreamToOpenaiChat, codexStreamToOpenaiChat and the cache marks on
  blocks: further translators of the same kinds.
- Conversation checkpoints, session tables, heartbeats and pendingToolResult around a Cursor turn.
- KeepaliveCredentials, ListModels, subscription windows and the daily cap.
- CodexIds.Probe: asks that the digests of one id differ for the attempts it may need; that SHA-256 does so is not proved.
- CodexIds.RenamingIsInjectiveAndBounded: asks the same for twice as many attempts as there are items.
- Failover.Proxy: the state a served stream leaves when it is drained is a parameter, since streams go to several client formats (`ClaudeRuns.ChatEndsWell` and `ClaudeRuns.ResponsesEndsWell` say when it is good for a Claude client), and the token counts of a usage event are not carried.
- ClaudeStream.TranslateChatStream: one pair of formats of the cited loop; the closing line of a chat client is not modelled.
- ClaudeStream.TranslateResponsesStream: likewise one pair of formats of the cited loop.
- Aliases.AliasedNamesAreDistinct: asks for no more tools than there are words, since otherwise a client tool may keep its name.
- CallsByIndex.BlocksHoldCallsByIndex: asks that entries name calls already opened, since `CallsByIndex.CrossedArgumentsMakeUp` shows that without it the fragments alone do not decide the end; `CallsByIndex.BlocksFollowIndex` asks nothing.
- ClaudeRuns.MessageCarriesEventCalls: arguments belong to the last item added; the item id that an argument event may carry is read nowhere in the translators.
- ResponsesTrip.ResponsesToGrok: message items in roles other than user, assistant and system are not modelled.
- Routing.ChainsAreShort: takes the Cursor catalogue maps as parameters and only their provider names as known.
- Slugs.UniqueSlugIsFirstFree: asks that the slug has at most 44 characters and that there are fewer than 998 sources, since longer slugs are cut to make room for a number and numbers from 1000 on go behind "src".
- CodexNames.NamesInFull: asks of the digests what CodexIds.RenamingIsInjectiveAndBounded does.
- AliasNames.WhichToolsAreAliased: asks for no more tools than there are words, as EveryToolIsAliased does.
- CchForm.NormalFormIsText: asks that no quote stands inside a number or a word, which holds of every JSON text.
- Slugs.UniqueSlugIsFresh: nothing is claimed about freshness from 99,000 sources on, where the last candidate is not checked.
- Channels.NoDeadlock: states that a step is always possible, not that a fair scheduler finishes.
