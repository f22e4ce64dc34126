# context-continue-mcp core, modelled in Dafny

context-continue-mcp keeps a coding project's conversational context
across sessions. It has three parts:

- A **token counter** estimates how many tokens a text holds. It places a
  running total in one of three bands, continue, warn or break, against a
  per-session limit, and suggests a checkpoint or the end of the session.
- A **session tracker** holds one active session and its message
  buffer. When the session ends, it writes a Markdown transcript to
  `.context/sessions/` and a copy to `current_session.md`. It can also list
  and re-parse past transcripts.
- A **context manager** keeps two append-only Markdown ledgers under
  `.context/progress/`: `milestones.md` and `decisions.md` (ADRs). It
  builds a project summary and a "context restoration" prompt from the
  configuration, the session file names, the ledgers and
  `project_summary.md`.

The model follows the source file by file:

| module | file | models |
|---|---|---|
| `Wrappers`, `Text` | (helpers) | `Option`/`Result`; strings, `split('\n')`/`join`, `trim`, `parseInt`, numerals, `path.basename`, the UTF-16 length of a JavaScript string |
| `Records` | `src/types.ts` | the record shapes as datatypes; a `Date` is epoch milliseconds plus the day and clock renderings that `format` prints |
| `FileStore` | (the `fs` calls) | a `FileSystem` class whose fields are a map from path to content and a map from directory to listing; `readFile` and `readdir` return `None` where they throw |
| `Tokens` | `src/token-counter.ts` | `countTokens`, `getUsage`, `shouldSuggestBreak` as functions over an immutable `TokenCounter` value |
| `Transcript` | `src/session-tracker.ts` | `generateSessionMarkdown` (a loop over the messages), `parseSessionFromMarkdown` (a loop over the lines), and the proof that a transcript reads back |
| `Sessions` | `src/session-tracker.ts` | the `SessionTracker` class (`currentSession`, `messages`) with `startSession`, `addMessage`, `endSession`, `writeSessionFile`; `getSessions` as a loop plus a stable sort |
| `Ledger` | `src/context-manager.ts` | the ledger formats, the two ledger parsers as loops, and appending one entry |
| `Restoration` | `src/context-manager.ts` | the reading of session file names, the current phase, key context, next steps, and the restoration prompt text |
| `Context` | `src/context-manager.ts` | the `ContextManager` class (its cached `config`) and its public operations |

Two parsers read sessions back, and they disagree on ids.
`parseSessionFromMarkdown` takes the id from the file name with the regex
`session_(.+?)_`. Tracker ids begin with `session_`, so every transcript
the tracker writes reads back with the id `"session"`
(`Transcript.TrackerIdsReadBackAsSession`). The context manager's
`parseSessionInfo` uses the lazy regex `session_(.+?)_(\d{4}-\d{2}-\d{2})\.md`.
It recovers the whole id (`Restoration.SessionInfoOfTranscriptName`). The
model keeps both behaviours as written.

Other behaviours kept as written:

- `parseDecisionsFromMarkdown` takes the decision text from the third line
  after the heading. That is the entry's `**Context:**` line.
- The ADR regex `### ADR-\d+: ` only strips the prefix when the last three
  characters of the generated id are all digits
  (`Ledger.DecimalAdrTitle`, `Ledger.LetteredAdrTitle`).
- A milestone heading is only recognised when the title contains
  `Milestone`.
- The restoration prompt's session total is the number of session file
  names. Its token total is always 0, because `parseSessionInfo` sets every
  counter to zero.

## Model

| member | source | states |
|---|---|---|
| Tokens.FallbackEstimate | src/token-counter.ts:19-22 | the fallback estimate is the UTF-16 length divided by four, rounded up: `4n-4 < len <= 4n` |
| Tokens.CountTokens | src/token-counter.ts:15-23 | the tokenizer's count when it succeeds; otherwise the fallback bound `4n-4 < len <= 4n` |
| Tokens.FallbackZeroIffEmpty | src/token-counter.ts:21 | the fallback is 0 exactly for the empty text and at least 1 otherwise |
| Tokens.FallbackMonotone | src/token-counter.ts:21 | a longer text never gets a smaller fallback estimate |
| Tokens.RoundedPercent | src/token-counter.ts:25-43 | `Math.round(current / limit * 100)` computed exactly: `2·limit·p − limit <= 200·current < 2·limit·p + limit` |
| Tokens.GetUsage | src/token-counter.ts:25-43 | current and limit are echoed; each band holds exactly when `100·current` is below 60·limit, between 60·limit and 80·limit, or at least 80·limit; the percentage is the rounded ratio |
| Tokens.UsageIgnoresWarningThreshold | src/token-counter.ts:9-43 | two counters that differ only in `warningThreshold` report the same usage |
| Tokens.BandMonotone | src/token-counter.ts:29-35 | more tokens never give a lower band |
| Tokens.PercentageAgreesWithBand | src/token-counter.ts:26-40 | the rounded percentage agrees with the band: continue ⇒ ≤ 60, warn ⇒ 60..80, break ⇒ ≥ 80, ≤ 59 ⇒ continue, ≥ 81 ⇒ break |
| Tokens.PercentageInRange | src/token-counter.ts:25-43 | totals between 0 and the limit give a percentage between 0 and 100 |
| Tokens.DefaultLimitExamples | __tests__/token-counter.test.ts:57-101 | the full usage records for 0, 5000, 8999, 9000, 10000, 12000 and 13000 tokens against the default limit of 15000 |
| Tokens.ShouldSuggestBreak | src/token-counter.ts:45-67 | no suggestion exactly in the continue band; a checkpoint with the "High token usage (p% used)" reason in the warn band; ending the session with "Approaching token limit (p% used)" in the break band; the total is echoed |
| Tokens.SuggestionMonotone | src/token-counter.ts:45-67 | once a total gets a suggestion, every larger total gets one; once it suggests ending the session, every larger total does too |
| FileStore.Listed | src/session-tracker.ts:140-145 | the listing after a write holds the written name and every earlier name, and nothing else |
| FileStore.AfterWrite | src/session-tracker.ts:140-145 | a write adds its name to its directory's listing and leaves every other listing as it was |
| FileStore.WithDirectory | src/context-manager.ts:332-335 | `mkdir -p` adds an empty listing for a new directory and leaves an existing one alone |
| FileStore.FileSystem.ReadFile | src/context-manager.ts:175-180 | the read succeeds exactly for stored paths and returns their content |
| FileStore.FileSystem.ReadDir | src/context-manager.ts:158-164 | the listing exists exactly for created directories |
| FileStore.FileSystem.MakeDirectory | src/context-manager.ts:332-335 | the directory is added as `WithDirectory` says; files are unchanged |
| FileStore.FileSystem.EnsureContextDirectory | src/session-tracker.ts:101-128 | `.context`, `sessions`, `progress` and `artifacts` exist afterwards; `config.json` is written only where it does not exist, and no existing file changes |
| FileStore.WithInitialConfig | src/session-tracker.ts:113-127 | the configuration path exists afterwards; every existing file keeps its content; a new one holds the rendered defaults |
| FileStore.FileSystem.WriteFile | src/session-tracker.ts:141 | the path maps to the new content; the name is listed in its directory |
| Sessions.TotalTokensSnoc | src/session-tracker.ts:67-68 | the buffer's token sum grows by exactly the appended message's tokens |
| Sessions.SessionTracker.constructor | src/session-tracker.ts:7-8 | no current session and an empty buffer |
| Sessions.SessionTracker.GetCurrentSession | src/session-tracker.ts:50-52 | an active session has no end time; its counters equal the buffer's length and token sum; with no session the buffer is empty |
| Sessions.SessionTracker.StartSession | src/session-tracker.ts:10-33 | fails with "already active" and changes nothing while a session is active; otherwise creates the new active session with zero counters, empties the buffer, ensures the context directories and writes the initial configuration where none exists |
| Sessions.SessionTracker.AddMessage | src/session-tracker.ts:54-70 | fails without an active session and changes nothing; otherwise appends the message and adds its tokens and one message to the counters, keeping the invariant |
| Sessions.SessionTracker.WriteSessionFile | src/session-tracker.ts:130-146 | writes the same transcript, with the duration in rounded minutes, to `session_<id>_<day>.md` and to `current_session.md` |
| Sessions.SessionTracker.EndSession | src/session-tracker.ts:35-48 | fails with "no active session" and changes nothing when idle; otherwise stamps the end time, writes the ended session's transcript to both files, and clears the session and the buffer |
| Sessions.SessionFiles | src/session-tracker.ts:77 | exactly the `session_*.md` names of the listing are kept |
| Sessions.ReadRecords | src/session-tracker.ts:80-85 | one parsed record per session file, in order; `None` exactly when one of the files cannot be read |
| Sessions.InsertByStart | src/session-tracker.ts:87 | inserting keeps every record started and adds exactly one occurrence of the new record |
| Sessions.SortByStart | src/session-tracker.ts:87 | the sort is a permutation of its input |
| Sessions.SortByStartSorted | src/session-tracker.ts:87 | the sort orders records by non-decreasing start time |
| Sessions.GetSessions | src/session-tracker.ts:72-91 | the loop returns exactly `ListSessions`: file by file, `[]` on a missing directory or an unreadable file |
| Sessions.ListSessionsProperties | src/session-tracker.ts:72-91 | no sessions directory gives `[]`; the result is always sorted by start; a non-empty result is a permutation of the records read |
| Sessions.WrittenNamesFiltered | src/session-tracker.ts:130-146 | a transcript's own name passes the session-file filter and `current_session.md` does not |
| Transcript.DurationMinutes | src/session-tracker.ts:136-138 | `Math.round(elapsed ms / 60000)`: `120000·d − 60000 <= 2·elapsed < 120000·d + 60000` |
| Transcript.CountRole | src/session-tracker.ts:178-179 | a role count is at most the number of messages |
| Transcript.RoleCountsAddUp | src/session-tracker.ts:177-179 | the user count plus the assistant count is the total message count |
| Transcript.AverageLength | src/session-tracker.ts:180 | the rounded average content length; 0 for no messages (the `NaN \|\| 0` fallback) |
| Transcript.Efficiency | src/session-tracker.ts:181 | tokens per thousand characters, rounded, with the character count floored at 1 |
| Transcript.HeaderFallbacks | src/session-tracker.ts:150-157 | a missing or empty name prints "Unnamed Session"; no end time prints "Active"; the duration line is omitted exactly when the duration is 0 |
| Transcript.RenderHeader | src/session-tracker.ts:149-166 | the header text of the transcript, its optional lines included |
| Transcript.AppendStatistics | src/session-tracker.ts:176-181 | appends the five statistics lines |
| Transcript.GenerateSessionMarkdown | src/session-tracker.ts:148-184 | the loop over the messages builds exactly `SessionMarkdown` |
| Transcript.SessionMarkdownLines | src/session-tracker.ts:148-184 | the transcript is the header lines followed by the body lines, joined by newlines |
| Transcript.MatchSessionId | src/session-tracker.ts:190 | a match of `session_(.+?)_` captures a non-empty id |
| Transcript.ParsedSessionId | src/session-tracker.ts:190 | the id read from a file name is non-empty unless the name is empty (the `\|\| filename` fallback) |
| Transcript.SplitSecond | src/session-tracker.ts:200-212 | `split(key)[1]` is a prefix of the text after the key, and all of it when the key does not recur |
| Transcript.ParseSessionFromMarkdown | src/session-tracker.ts:186-221 | the loop over the lines computes exactly `ParseTranscript` |
| Transcript.SessionIdRecovered | src/session-tracker.ts:190 | a name `session_<id>_<rest>` with an underscore-free id reads back as `id` |
| Transcript.TrackerIdsReadBackAsSession | src/session-tracker.ts:190 | every tracker-written transcript name reads back with the id `"session"` |
| Transcript.EndStampReadable | src/session-tracker.ts:202-204 | the end stamp is one line; it contains "Active" exactly when there is no end time |
| Transcript.ReadBack | src/session-tracker.ts:148-221 | parsing a written transcript gives its name, start and end, counters and the `cwd` project, with status ended |
| Ledger.Appended | src/context-manager.ts:97-105 | the new ledger starts with the old text, or with the header when none exists; it ends with `"\n" + entry + "\n"`; its length is the sum |
| Ledger.AppendedLines | src/context-manager.ts:97-107 | appending single-line parts adds exactly those lines and one empty line after the old lines |
| Ledger.StatusIcon | src/context-manager.ts:311-312 | each status icon is one character, and not a space, a newline or `M` |
| Ledger.LineAfter | src/context-manager.ts:274 | `lines[i + k] \|\| ''`: the line when it exists, otherwise empty |
| Ledger.MilestonesFrom | src/context-manager.ts:259-282 | at most one milestone per line; each is created now, with no completion date |
| Ledger.ParseMilestonesFromMarkdown | src/context-manager.ts:259-282 | the loop over the lines computes exactly `MilestonesFrom` |
| Ledger.MilestonesAsScan | src/context-manager.ts:264-279 | the parse reads each line independently, from the line and the next one |
| Ledger.MilestoneHeadingRead | src/context-manager.ts:264-279 | a written heading is recognised exactly when the title contains "Milestone"; its status reads back; its title is the heading with the first " Milestone" removed |
| Ledger.MilestoneTitleRead | src/context-manager.ts:266-267 | the same, for any one-character icon |
| Ledger.MilestoneStatusRead | src/context-manager.ts:268-269 | the icon gives back the status, provided the title does not contain another status's icon |
| Ledger.MilestoneEntryRead | src/context-manager.ts:259-282 | a written entry reads back as its title, its `**Status:**` line as the description, and its status, or as nothing when its title lacks "Milestone" |
| Ledger.AddedMilestoneRead | src/context-manager.ts:86-108 | after an append, the parse holds the old milestones followed by the new entry's read-back |
| Ledger.MilestoneLedger | src/context-manager.ts:97-107 | a ledger built by appends is non-empty and ends in a newline |
| Ledger.EmptyMilestoneLedgerRead | src/context-manager.ts:97-105 | the header alone holds no milestones |
| Ledger.MilestoneLedgerRead | src/context-manager.ts:86-108 | a ledger of appended entries reads back entry by entry, in order |
| Ledger.AdrPrefixLength | src/context-manager.ts:292 | a match of `### ADR-\d+: ` spans at least 11 characters of the line |
| Ledger.RemoveAdrPrefix | src/context-manager.ts:292 | removing the first match never lengthens the line |
| Ledger.DecisionsFrom | src/context-manager.ts:284-308 | at most one decision per line; each is accepted, created now, with no context, alternatives or consequences |
| Ledger.ParseDecisionsFromMarkdown | src/context-manager.ts:284-308 | the loop over the lines computes exactly `DecisionsFrom` |
| Ledger.DecisionsAsScan | src/context-manager.ts:289-305 | the parse reads each line independently, from the line and the three after it |
| Ledger.DecisionEntryRead | src/context-manager.ts:284-308 | a written entry reads back as one decision: the heading with its ADR prefix removed where the regex matches, and the `**Context:**` line as its decision |
| Ledger.AddedDecisionRead | src/context-manager.ts:110-132 | after an append, the parse holds the old decisions followed by the new entry's read-back |
| Ledger.DecisionLedger | src/context-manager.ts:121-131 | a ledger built by appends is non-empty and ends in a newline |
| Ledger.EmptyDecisionLedgerRead | src/context-manager.ts:121-129 | the header alone holds no decisions |
| Ledger.DecisionLedgerRead | src/context-manager.ts:110-132 | a ledger of appended entries reads back entry by entry, in order |
| Ledger.DecimalAdrTitle | src/context-manager.ts:292 | with an all-digit ADR number, the title reads back exactly |
| Ledger.LetteredAdrTitle | src/context-manager.ts:292 | when the number starts with a letter, the title keeps the whole `### ADR-xyz: ` heading |
| Restoration.LazyCapture | src/context-manager.ts:248 | the lazy group of `(.+?)_(\d{4}-\d{2}-\d{2})\.md` stops at the first position where the date suffix follows, and fails when there is none |
| Restoration.SessionMatch | src/context-manager.ts:248 | a match has a `session_` prefix, a non-empty capture and a date suffix after it |
| Restoration.ParseSessionInfo | src/context-manager.ts:247-257 | a record read from a file name has zero counters, status ended, an empty project path, and no name or end time |
| Restoration.SessionInfoOfTranscriptName | src/context-manager.ts:247-257 | the name of a written transcript gives back the session's id and its start day |
| Restoration.UndatedSessionName | src/context-manager.ts:250-252 | a name with no date suffix gives the whole name as the id and `now` as the start time |
| Restoration.LineRest | src/context-manager.ts:197 | `(.+)` takes the longest prefix that holds no line terminator |
| Restoration.PhaseFrom | src/context-manager.ts:197 | the leftmost match of `\*\*Current Phase:\*\* (.+)` from a position: `None` exactly when no position holds the label followed by at least one character before the line ends; otherwise the line's rest after the first such label; a phase found is non-empty and on one line |
| Restoration.CurrentPhase | src/context-manager.ts:193-202 | no file gives no phase; in a file, no phase exactly when no label line holds text, and otherwise the text after the first label that has some |
| Restoration.PhaseLineRead | src/context-manager.ts:197-198 | a `**Current Phase:** x` line gives back `x` whenever no match starts before its label, whatever bold text comes earlier |
| Restoration.BoldLineBeforePhase | src/context-manager.ts:197-198 | a summary with a `**Status:**` line before the phase line reads back its phase |
| Restoration.ActiveMilestones | src/context-manager.ts:213 | the filter keeps exactly the in-progress milestones |
| Restoration.ActiveMilestonesAppend | src/context-manager.ts:213 | the filter distributes over concatenation |
| Restoration.TextOr | src/context-manager.ts:60-78 | `x \|\| fallback` gives the fallback or a non-empty `x` |
| Restoration.KeyContext | src/context-manager.ts:56-63 | four fixed lines (project, sessions, tokens, phase), then one line per active milestone, then the first three decisions |
| Restoration.ContinueStepsAppend | src/context-manager.ts:213-214 | one more milestone adds a step exactly when it is in progress |
| Restoration.ProposedStepsShape | src/context-manager.ts:213-218 | before the cap: one step per active milestone, then one per decision, the first two decisions only |
| Restoration.NextStepsShape | src/context-manager.ts:209-226 | one to five steps; the two defaults exactly when nothing is active and there are no decisions; otherwise the first five of the proposed steps, in order |
| Restoration.SummarizeSession | src/context-manager.ts:204-207 | the summary begins "Last session focused on " |
| Restoration.SummaryOfListedSession | src/context-manager.ts:204-207 | a session read from a file name always summarises as "development work" with 0 exchanges and 0 tokens |
| Restoration.Reversed | src/context-manager.ts:170 | the reversal mirrors every position |
| Restoration.Recent | src/context-manager.ts:167-171 | `slice(-count).reverse()`: the last `count` sessions, newest first; all of them when `count` is 0 |
| Restoration.LastSessionSummaryCases | src/context-manager.ts:44-53 | the placeholder exactly when there are no sessions; otherwise the summary of the last listed one |
| Restoration.Prefixed | src/context-manager.ts:238-241 | each item gets the prefix, position by position: `- ` for the key context, `1. ` for the steps |
| Restoration.PromptLinesRead | src/context-manager.ts:228-245 | with one-line parts, the prompt splits into exactly its template lines |
| Restoration.PromptLinesInOrder | src/context-manager.ts:228-245 | the template lines put the title, the phase, the summary, the bullets, the numbered steps and the instructions at their positions |
| Restoration.PromptListsInOrder | src/context-manager.ts:228-245 | the same positions, read in the lines of the prompt text itself |
| Context.ProjectName | src/context-manager.ts:34 | the configured name, or the path's basename |
| Context.DefaultProjectName | src/context-manager.ts:134-155 | with no configuration file, or one that fails to parse, the name is the basename |
| Context.InitialConfigLoaded | src/session-tracker.ts:113-127 | after the tracker prepares a fresh project, loading the configuration gives the parse of the defaults it wrote; an existing configuration is left as it was |
| Context.CachedConfigKept | src/context-manager.ts:135 | a cached configuration is returned whatever the file says |
| Context.ListedSessions | src/context-manager.ts:157-165 | `[]` with no directory; otherwise one record per session file name, parsed from the name, in order, each with zero tokens |
| Context.TokenTotalOfZeros | src/context-manager.ts:25 | the token sum of zero-count sessions is 0 |
| Context.LatestStart | src/context-manager.ts:26-28 | `now` with no sessions; otherwise the start time of one of them that is not earlier than any other |
| Context.Summary | src/context-manager.ts:33-41 | the name, path, number of sessions, token sum, latest start, phase, and the first five milestones |
| Context.ListedSummaryFacts | src/context-manager.ts:16-42 | a summary of listed sessions counts the session files, has zero tokens, and reports `now` when there are none |
| Context.RestorationFacts | src/context-manager.ts:44-84 | the prompt's name is the project name; its phase is the phase read, or "Development"; the placeholder summary appears exactly when no session file is listed; the first three context lines name the project, the session count and zero tokens; it has one to five steps |
| Context.ContextManager.constructor | src/context-manager.ts:1-15 | no cached configuration |
| Context.ContextManager.LoadConfig | src/context-manager.ts:134-155 | the cached configuration if any, else the parsed file, else the defaults (15000, 12000, true, medium, basename, `.context`); the result is cached and a cached one is not replaced |
| Context.ContextManager.GetMilestones | src/context-manager.ts:173-181 | `[]` when the ledger is missing; otherwise the ledger's parse |
| Context.ContextManager.GetDecisions | src/context-manager.ts:183-191 | `[]` when the ledger is missing; otherwise the ledger's parse |
| Context.ContextManager.GetProjectSummary | src/context-manager.ts:16-42 | caches the loaded configuration and returns `Summary` of the listed sessions, the stored milestones and the phase read |
| Context.ContextManager.GenerateNextSteps | src/context-manager.ts:209-226 | the two loops and the fallback compute exactly `NextSteps`, whose shape `NextStepsShape` states |
| Context.ContextManager.GenerateRestorationPrompt | src/context-manager.ts:44-84 | caches the configuration and returns the prompt `RestorationOf` builds from the files read, whose facts `RestorationFacts` states |
| Context.ContextManager.AddMilestone | src/context-manager.ts:86-108 | ensures the progress directory and replaces `milestones.md` with the old text, or the header, followed by the new entry with its fresh id and time |
| Context.ContextManager.LogDecision | src/context-manager.ts:110-132 | ensures the progress directory and replaces `decisions.md` with the old text, or the header, followed by the new ADR entry |
| Text.Lines | src/context-manager.ts:262 | `split('\n')` gives at least one piece, and no piece holds a newline |
| Text.LinesOfJoin | src/context-manager.ts:262 | splitting a newline-join of one-line pieces gives back the pieces |
| Text.JoinOfLines | src/context-manager.ts:262 | joining the pieces of a split gives back the text |
| Text.ReplaceFirst | src/context-manager.ts:267 | replacing a pattern that does not occur leaves the text alone |
| Text.RoundedQuotient | src/session-tracker.ts:136-138 | `Math.round(a / b)` for a positive `b`: `2bq − b <= 2a < 2bq + b` |
| Text.ParseIntOfNatToString | src/session-tracker.ts:205-210 | `parseInt` of a printed count gives the count back |
| Text.ParseIntOfPaddedNat | src/session-tracker.ts:205-210 | the same after the space the template puts before the number is trimmed |
| Text.Utf16Length | src/token-counter.ts:21 | a string's JavaScript length lies between its code-point count and twice that |
| Text.LastChars | src/context-manager.ts:324 | `slice(-n)` is a suffix of length `min(n, len)` |
| Text.Basename | src/context-manager.ts:34 | a basename holds no `/` |

## Left out

- The tokenizer. `tiktoken`'s `encode` is a function parameter that
  returns `None` where it throws. Its token values are not modelled.
- Floating point. Percentages, durations, averages and efficiencies are
  computed exactly with integers, by cross-multiplying. A result that
  floating-point rounding would move across a band or rounding boundary is
  not modelled.
- A zero or negative `maxTokens`. The `Limit` type is positive, so the
  `Infinity`/`NaN` percentages of a zero limit are not modelled.
- Clocks, randomness and date formatting. `new Date()`, `Date.now()`,
  `generateId`, `generateSessionId` and `generateMessageId` are
  parameters. So are `format`'s renderings: a `Time` carries its day and
  clock text. So is `new Date(text)`, as `parseDay`/`parseDate`.
- Invalid dates, and `NaN` in `Math.max` and the sort comparator. A parsed
  date is always a valid instant here.
- `JSON.parse` is a parameter from text to configuration, `None` where it
  throws. A file that parses to something other than a configuration
  object (such as `null`) is not modelled.
- Context.ContextManager.GenerateRestorationPrompt: the source calls
  `getMilestones`, and with it `generateId`, twice. The model passes the
  same id function to both calls.
- The file system. It is a map of contents and a map of listings, with no
  permissions, write failures, symbolic links, ordering of `readdir`, or
  concurrent writers. `path.join` is concatenation with `/`, without
  normalisation.
- The initial `config.json` that `ensureContextDirectory` writes is a
  parameter (`configText`). That is its `JSON.stringify` rendering, with the
  `createdAt` clock reading. `fs.access` is modelled as the existence of a
  file at that path.
- JavaScript numbers are doubles. Counters and totals are unbounded
  `nat`s here, and numerals are printed in plain decimal. The 2^53
  precision limit and the exponent form (`1e+21`) that `${...}` prints for
  large values are not modelled. This applies to `tokenCount +=`,
  `messageCount++` and the rendered counts.
- Sessions.SessionTracker.StartSession and
  Sessions.SessionTracker.GetCurrentSession return the session as a value.
  In the source, `startSession` returns, and `getCurrentSession` exposes,
  the live object that `addMessage` and `endSession` go on mutating. A
  caller holding that object sees later counter, end-time and status
  changes; a caller of the model sees a snapshot and must call
  `getCurrentSession` again. That aliasing is not modelled.
- `process.cwd()` is a parameter (`cwd`).
- Asynchrony. Every `await` is a sequential step.
- Sessions.ReadRecords: a transcript whose parse throws is not modelled.
  No such input exists, since every `split(key)[1]` follows a
  `startsWith(key)` test. The `if (session)` test in `getSessions` is
  therefore always true.
- `console.error` output.
- The MCP server, the CLI and the entry point (`src/server.ts`,
  `src/cli.ts`, `src/index.ts`) are not part of this model.
