# A verified model of the Blokli client's subscriptions

The Blokli client keeps many GraphQL subscriptions over few connections. Its subscription hub renders the documents of
all registered subscriptions into one, drives the connection, routes every frame back to the subscriptions it concerns,
moves misbehaving subscriptions onto connections of their own, and tracks the health of each. This project models that
machinery in Dafny, together with the two smaller pieces of the repository whose correctness takes an argument: the
in-memory test client and the two spellings of a service type. `dafny verify dfyconfig.toml` checks everything.

## How the model is built

* **Assembling documents** (`Lexer`, `Tokens`, `Renaming`, `Parens`, `Documents`, `Splitting`, `Combiner`, `Meaning`,
  `SelectionMeaning`, `RootFields`, `Comments`). The scanning loops of the hub are methods. They are proved against a
  tokeniser that tells apart string literals, delimited as in section 2.9.4 (String Value) of the GraphQL specification
  of October 2021, variables (section 2.10), runs of name characters, and single characters, which include those of
  comments. Unlike the specification, and like the hub, it lets a string run over the end of a line. `Comments` says
  exactly when it agrees with a lexer that skips comments. What the combined document means is proved about its tokens.
  Putting several root fields into one subscription departs from section 5.2.3.1 (Single Root Field) of that
  specification, as the hub does on purpose.
* **Health** (`Health`, `HealthRuns`, `HealthHistory`). `HealthTracker` updates its fields in place. Its methods are
  proved equal to functions on tracker values, and the functions are followed over whole timed runs.
* **The hub** (`Hub`, `Scopes`). `HubShared` holds the state behind the hub's lock. Each section of code that runs under
  the lock is a method, loops included, proved equal to a function from the state before to the state after.
* **The protocol** (`Protocol`, `Drivers`, `Lifecycle`, `Wakeups`, `Losses`, `Lags`, `Moves`, `Races`, `Replays`,
  `Stragglers`). Consumers, callers and supervisors interleave. Every section under the lock, every operation on a lag
  flag and every use of the generation channel is one step; the steps use the functions `HubShared` is proved to
  implement. What the network, the clock and the scheduler decide is left open. The theorems hold of every state of
  every run.
* **Frames** (`Routing`, `Dispatch`, `FrameEffects`). Taking one response apart, and what a sequence of frames does to
  every subscription on a connection, shared or of a slot's own.
* **Resuming** (`Resume`, `CursorRisk`, `ResumeLosses`). One resumable subscription, its bounded queue and its cursor, a
  server with a log of changes and snapshots, and any number of connections opening, retrying, breaking and closing.
* **Backoff** (`Backoff`), **the test client** (`Replica`) and **service types** (`ServiceTypes`).

## Where the code falls short of its promise

Five guarantees hold only under a condition. The condition is exact, and a concrete run or input shows each failure.

* **A stopped connection can end a slot that has left it.** `end_connected` lists the slots in one critical section and
  ends them in the next, and tells nobody. A slot whose consumer moves it in between is ended although its own
  connection already serves it; the supervisor of that connection is not woken and goes on driving it for nobody, until
  some other change wakes it (`Races.WakeupCanBeLost`). It takes a supervisor that is held up between the two sections
  for as long as the new connection needs to come up. A connection at rest serves its scope exactly when this has not
  happened to its slot (`Wakeups.NoLostWakeup`), and ending slots leaves every other supervised connection alone exactly
  when none of the listed slots has moved to one (`Wakeups.EndingTakesOnlyOwnSlots`). The failure path of
  `build_connection` ends its slots in the same way.
* **A resume cursor can pass an entry.** The graph subscription promises that a reconnect loses no channel change, and
  the hub that a lagging slot has its missed state replayed. When the full queue of a slot on the shared connection
  drops an entry and a later one is queued and received, the cursor moves past the dropped entry, and the resync that
  follows asks for what comes after it (`ResumeLosses.CursorCanPassAnEntry`). Exactly the drops of something the
  consumer lacks put the cursor at risk: after such a drop, and after no other step, the run can go on without a further
  loss until the consumer resumes after something it never received (`CursorRisk.AtRiskIffLost`); and a run is never at
  risk exactly when it loses nothing (`CursorRisk.NeverAtRiskIffNothingIsLost`).
* **The replay of a lagging slot can reach its siblings.** `request_resync` records the request in one critical section
  and moves the slot in the next, so that the replay reaches no sibling. A shared connection that looks in between
  reconnects all of them (`Replays.ReplayCanReachSiblings`). A shared connection that covers its slots, with no more
  stale aliases than it tolerates, reconnects them when it looks exactly when a slot has asked and not yet left
  (`Replays.ReplayReachesSiblingsIff`); once the slot has moved, it does so exactly when no sibling is left or one stale
  alias too many (`Scopes.MovingReconnectsNoSibling`).
* **A slot that moved can lag again.** A connection of a slot's own waits for its consumer, so that a slot that moved
  does not lag again. But the shared connection looks up in one critical section whose events it hands out, and hands
  them out after that; when it cannot open a connection, it tells every slot of its last snapshot. What it has in hand
  when the slot leaves finds the queue full if the slot's own connection has filled it in the meantime
  (`Stragglers.MovedSlotCanLagAgain`). A slot that has left can lag again exactly when a shared connection has something
  for it in hand, and nothing takes it in hand later (`Stragglers.LagsAgainIffHeld`).
* **Root fields are put next to each other without a separator.** The combined selection means what the slots ask for
  exactly when no token at the end of one field grows into the next (`SelectionMeaning.SelectionMeans`). Documents such
  as `subscription{a}`, which the hub accepts, merge (`SelectionMeaning.BareFieldsMerge`); fields that are indented, as
  the client renders them, never do (`SelectionMeaning.DelimitedSeamsHold`).

Three more conditions are part of the design and stated as such. The hub reads comments as tokens, which makes no
difference exactly while no `#` stands outside a literal, and can leave a variable unrenamed otherwise
(`Comments.AgreesIffNoHash`, `Comments.QuoteInCommentHidesVariable`). A service type name that starts with `0x` is not
read as a name (`ServiceTypes.ParseOfName`). A full broadcast channel can cost a replica its exactness
(`Replica.SubscriberStaysExact`).

## Model

| member | source | states |
|---|---|---|
| Lexer.StringLiteralLen | client/src/client/subscription_hub.rs:1329-1355 | The loop over a string or block string returns the length of the literal the text starts with: up to its closing quotes, escapes respected, or to the end of the text when it is never closed |
| Lexer.LiteralStable | client/src/client/subscription_hub.rs:1329-1355 | A closed literal has the same length whatever follows it, unless it is the empty string and a further quote makes it a block string |
| Lexer.BlockEndAtFirstQuotes | client/src/client/subscription_hub.rs:1332-1339 | Jumping from one triple quote to the next finds the same end of a block string as looking at every character |
| Lexer.QuotedEndAtFirstUnescaped | client/src/client/subscription_hub.rs:1343-1352 | An ordinary string ends at the first quote with an even number of backslashes directly before it, and is not closed if and only if there is none |
| Tokens.FirstTokenMeans | client/src/client/subscription_hub.rs:1295-1324 | A text starts with a literal, a variable, a word or a single character, by its first character and the longest run of name characters |
| Tokens.TextOfTokens | client/src/client/subscription_hub.rs:1295-1324 | Tokenising loses nothing: the texts of the tokens put together are the text |
| Tokens.SeamIsExact | client/src/client/subscription_hub.rs:1215-1216 | Two texts next to each other have the tokens of the first followed by those of the second if and only if no token grows across the seam |
| Tokens.TokeniseConcat | client/src/client/subscription_hub.rs:1215-1223 | A text whose literals are closed keeps its tokens in front of anything that starts with a separator |
| Renaming.RenameVariables | client/src/client/subscription_hub.rs:1295-1324 | The scanning loop computes the renaming that is defined token by token, and terminates |
| Renaming.RenameCommutes | client/src/client/subscription_hub.rs:1295-1324 | Tokenising the renamed text gives the renamed tokens of the original: only variables change, and every literal, terminated or not, is untouched |
| Renaming.UnrenameRename | client/src/client/subscription_hub.rs:1295-1324 | Stripping the prefix from the variables of the renamed text gives the original text back |
| Parens.FindMatchingParen | client/src/client/subscription_hub.rs:1266-1290 | The loop finds the offset at which the leading parenthesis closes, counting parenthesis tokens and skipping literals |
| Parens.CloseParenMeaning | client/src/client/subscription_hub.rs:1266-1290 | That offset belongs to the token at which the depth first returns to zero, and there is none if and only if there is no such token |
| Parens.BetweenParensIsBalanced | client/src/client/subscription_hub.rs:1248-1253 | What lies between the matching parentheses is balanced |
| Parens.BalancedRenamed | client/src/client/subscription_hub.rs:1191-1193 | Renaming keeps parentheses balanced |
| Splitting.SplitMeans | client/src/client/subscription_hub.rs:1238-1263 | A document splits into definitions and a field if and only if it consists of white space, the keyword, a name that may be missing, the definitions between the first parenthesis and its match, if any, and the field between the first opening brace that follows and the last closing brace |
| Documents.SplitDefinitionsAreSelfContained | client/src/client/subscription_hub.rs:1238-1263 | The definitions a document is split into are balanced and leave no literal open, whatever the document |
| Documents.ParensAroundMatch | client/src/client/subscription_hub.rs:1218-1222 | Parentheses around self-contained definitions match each other, whatever follows |
| Combiner.DecimalReads | client/src/client/subscription_hub.rs:1188 | The number in an alias is the slot's id in base ten, without leading zeros |
| Combiner.VariableNameInjective | client/src/client/subscription_hub.rs:1188-1201 | The scoped name of a variable determines the slot and the variable, so no variable is captured |
| Combiner.ScopeVariables | client/src/client/subscription_hub.rs:1199-1201 | Every variable of a slot is entered under its scoped name with its value, and nothing else is |
| Combiner.SplitSlot | client/src/client/subscription_hub.rs:1187-1197 | A slot's document splits into its definitions and its root field if and only if it renders; otherwise building fails |
| Combiner.Assemble | client/src/client/subscription_hub.rs:1215-1234 | The loop assembles the combined document, exactly the scoped variables of all slots, and one target for every slot |
| Combiner.BuildConnection | client/src/client/subscription_hub.rs:1181-1235 | Building succeeds if and only if every slot renders; then the connection carries all of them, and is resumable if and only if one of them is |
| RootFields.RootFieldNameMeans | client/src/client/subscription_hub.rs:1358-1367 | The name of a root field is the run of name characters behind its indentation, which nothing lengthens |
| RootFields.RendersMeans | client/src/client/subscription_hub.rs:1187-1197 | A slot renders if and only if its document has a selection and the field in it a name |
| RootFields.TargetsNameTheirFields | client/src/client/subscription_hub.rs:1196-1212 | Every target of a connection has its slot's id and a field name that is not empty, which the field in the slot's own document starts with and which stands behind the alias in the combined document |
| Meaning.CombineThenSplit | client/src/client/subscription_hub.rs:1181-1263 | Splitting the combined document gives back the comma-joined renamed definitions and the concatenated aliased fields |
| Meaning.ScopedLookup | client/src/client/subscription_hub.rs:1199-1201 | Looking a slot's variable up under its scoped name in the combined variables finds what the slot's own variables hold, or nothing if they hold nothing |
| Meaning.MeaningPreserved | client/src/client/subscription_hub.rs:1181-1235 | A renamed fragment with the combined variables in place reads as the original does with the slot's own variables |
| SelectionMeaning.AliasedFieldMeans | client/src/client/subscription_hub.rs:1370-1376 | An aliased field with the combined variables is the slot's field with its own variables behind the alias |
| SelectionMeaning.SelectionMeans | client/src/client/subscription_hub.rs:1181-1235 | The whole selection with the combined variables is what the slots asked for, one field after the other, each with its own values, if and only if no token at the end of one field grows into the next |
| SelectionMeaning.DelimitedSeamsHold | client/src/client/subscription_hub.rs:1215-1223 | Fields that are indented and close their literals never grow into each other |
| SelectionMeaning.DefinitionsMean | client/src/client/subscription_hub.rs:1215-1223 | The joined definitions, as one text with the combined variables, are what the definitions of the slots say, one slot after the other, each with the slot's own values |
| SelectionMeaning.ConnectionMeans | client/src/client/subscription_hub.rs:1181-1235 | The document of an assembled connection splits into its definitions and its selection; with the connection's variables the definitions, as one text, mean what those of the slots do, separated by commas, and so does the selection, if and only if no field grows into the next |
| SelectionMeaning.FieldsKeepTheirTokens | client/src/client/subscription_hub.rs:1215-1223 | Any number of fields put next to each other have their own tokens, one field after the other, if and only if no token at the end of one grows into the next |
| SelectionMeaning.UndelimitedFieldsMerge | client/src/client/subscription_hub.rs:1216-1221 | A text that ends in a word loses it when one that starts with a name character is put behind it |
| SelectionMeaning.BareSlotsRender | client/src/client/subscription_hub.rs:1238-1263 | Slots whose documents are a bare name between braces are accepted |
| SelectionMeaning.BareFieldsMerge | client/src/client/subscription_hub.rs:1216-1221 | The fields of any two such slots merge, so their combined selection has other tokens and another meaning than what they ask for |
| Comments.AgreesIffNoHash | client/src/client/subscription_hub.rs:1292-1324 | The hub's reading of a text is that of a lexer that skips comments if and only if no `#` stands outside a literal |
| Comments.RenamesOutsideComments | client/src/client/subscription_hub.rs:1292-1324 | Where none does, the hub renames exactly the variables outside comments |
| Comments.QuoteInCommentHidesVariable | client/src/client/subscription_hub.rs:1292-1324 | A comment that holds a quote keeps any variable on the next line from being renamed |
| Health.HealthTracker.RecordActivity | client/src/health.rs:303-332 | A sign of life ends an outage with its length, unless the consumer lags or the rejection stays |
| Health.HealthTracker.constructor | client/src/health.rs:268-287 | A subscription is connecting and has been out since its creation |
| Health.HealthTracker.TransportActivity | client/src/health.rs:290-292 | A keepalive or an event is a sign of life that ends a rejection too |
| Health.HealthTracker.Connected | client/src/health.rs:298-301 | A new connection is counted and is a sign of life that ends no rejection |
| Health.HealthTracker.DataUpdate | client/src/health.rs:335-338 | An update is a sign of life and is remembered |
| Health.HealthTracker.Problem | client/src/health.rs:341-373 | A failure is counted and starts an outage, at the creation of a subscription that never connected |
| Health.HealthTracker.Lagging | client/src/health.rs:377-380 | A lag is a failure that holds the subscription down |
| Health.HealthTracker.CaughtUp | client/src/health.rs:384-386 | A replay releases it and changes nothing else |
| Health.HealthTracker.Reject | client/src/health.rs:390-423 | A refusal is counted; it reports whether it begins a rejection, and then starts an outage unless one is on |
| Health.HealthTracker.MarkStalled | client/src/health.rs:437-467 | Silence stalls a subscription, and its outage began with the last sign of life or with the failure before it |
| Health.HealthTracker.Finished | client/src/health.rs:470-489 | The first end counts |
| Health.HealthTracker.Drop | client/src/health.rs:497-501 | Dropping a tracker cancels a subscription that has not ended |
| HealthHistory.ShowsWhatIsWrong | client/src/health.rs:303-467 | On every run a subscription lags, is rejected, stalled, degraded or over exactly as long as something that began it has not been ended: a lag by a replay, a rejection by a keepalive or an event but not by a connection, silence and failures by any sign of life while the consumer does not lag |
| HealthHistory.LagHoldsItDown | client/src/health.rs:375-386 | After a lag the subscription lags and works at no time until a replay is requested |
| HealthHistory.ConnectsAtFirstOnly | client/src/health.rs:268-287 | A subscription is connecting until anything at all comes or goes wrong |
| HealthHistory.RecoversWithItsOutage | client/src/health.rs:303-319 | Whenever a subscription comes to work again it reports the outage that ends, from where it began, and is healthy only if it never was down |
| HealthHistory.ConnectionsAreCounted | client/src/health.rs:298-301 | On every run the connections counted are those that were made |
| HealthHistory.FailuresAreCounted | client/src/health.rs:341-373 | On every run the failures counted are those since the subscription last worked, or since its creation |
| HealthHistory.LastProblemIsTheLast | client/src/health.rs:341-346 | The last problem is the one told of last |
| HealthHistory.LastUpdateIsTheLast | client/src/health.rs:335-338 | The last update is the one told of last |
| HealthHistory.StatusIsAsOldAsItsChange | client/src/health.rs:303-332 | The status is as old as the last event that changed it |
| HealthRuns.RunsStayConsistent | client/src/health.rs:303-319 | On every run failures are zero while a subscription connects or works, and a lagging one never does either |
| HealthRuns.OnlyReplaysRelease | client/src/health.rs:377-386 | A lagging subscription is released by a replay and by no other event |
| HealthRuns.LagsUntilReplay | client/src/health.rs:303-319 | On every run a subscription that lags keeps lagging, and works at no time, until a replay is requested |
| HealthRuns.EndedForGood | client/src/health.rs:470-489 | Once ended, a subscription stays ended for the same reason, whatever happens to it |
| HealthRuns.YieldsOncePerRejection | client/src/health.rs:390-423 | A refusal yields an error if and only if it takes the subscription into a rejection |
| HealthRuns.RejectionsAreSeparate | client/src/health.rs:390-423 | Between two yielded errors the subscription left the rejection |
| HealthRuns.OutagesAddUp | client/src/health.rs:303-332 | Over every run the outages reported do not overlap, each is as long as from its beginning to its recovery, and their sum is at most the lifetime |
| HealthRuns.LastSeenIsTheLast | client/src/health.rs:303-308 | What a tracker remembers as its last sign of life is the time of the last keepalive, connection or payload of the run, or its creation if there was none |
| HealthRuns.OutageHasOneBeginning | client/src/health.rs:341-373 | While a subscription is down, its outage counts from the one event that took it down, and it has been down ever since; nothing in between moves the beginning |
| HealthRuns.OutagesAreTrue | client/src/health.rs:303-332 | Every reported outage ends with a recovery and begins where the event that took the subscription down says: at the last sign of life for silence, at the creation while still connecting, and at the event otherwise; it was down all the time in between |
| Backoff.NextMalformedEventDelay | client/src/client/subscription_hub.rs:1167-1178 | After n failures in a row the delay is the closed form min(first * 2^(n-1), max(timeout, first)), saturating multiplication notwithstanding |
| Backoff.NextReconnectDelay | client/src/client/subscription_hub.rs:876-885 | After n failures in a row the delay is the closed form min(min(2 s, R) * 2^(n-1), R) with R the rejection wait |
| Backoff.DelaysGrow | client/src/client/mod.rs:494-496 | Both delays never shrink, start at their first value and stay within their caps, so a reconnect never waits longer than a rejection |
| Backoff.MalformedDelayDoubles | client/src/client/subscription_hub.rs:1167-1178 | The wait starts with the restart delay, a second if none is set and at least a millisecond, and doubles until it reaches the stream's timeout, or stays the first wait if that is longer |
| Backoff.ReconnectDelayDoubles | client/src/client/subscription_hub.rs:876-885 | The wait starts with two seconds or the stream's timeout, whichever is shorter, and doubles until it reaches that timeout |
| Hub.HubShared.constructor | client/src/client/subscription_hub.rs:389-397 | A hub starts without slots, supervisors and generations |
| Hub.HubShared.Register | client/src/client/subscription_hub.rs:208-234 | A registration takes the next id for a slot on the shared connection; outside a runtime the subscription fails and nothing changes |
| Hub.HubShared.Deregister | client/src/client/subscription_hub.rs:246-250 | The slot leaves, and its tracker reports a cancellation unless it had ended |
| Hub.HubShared.RequestResync | client/src/client/subscription_hub.rs:267-275 | The request is recorded, and the caller learns whether the slot has still to move |
| Hub.HubShared.Isolate | client/src/client/subscription_hub.rs:547-560 | A slot on the shared connection moves off it, with its cause; any other slot stays as it is |
| Hub.HubShared.BumpGeneration | client/src/client/subscription_hub.rs:495-500 | The generation goes up by one and wraps around at 64 bits |
| Hub.HubShared.ScopeIds | client/src/client/subscription_hub.rs:567-574 | Exactly the slots of the scope |
| Hub.HubShared.Snapshot | client/src/client/subscription_hub.rs:577-597 | Exactly the slots of the scope, whose resync requests, and no others, are taken and whose trackers have caught up |
| Hub.HubShared.End | client/src/client/subscription_hub.rs:600-607 | Exactly the listed slots that are still registered leave, ended for the given reason |
| Hub.HubShared.WithHealth | client/src/client/subscription_hub.rs:617-626 | Exactly the trackers of the listed slots that are still in the scope are told |
| Hub.HubShared.Reject | client/src/client/subscription_hub.rs:630-651 | Exactly those trackers are refused, and the slots returned are those for which the refusal is new |
| Hub.HubShared.StallWakeup | client/src/client/subscription_hub.rs:654-664 | The earliest stall deadline among the slots of the scope, and nothing if there is none |
| Hub.HubShared.ReportStalled | client/src/client/subscription_hub.rs:667-684 | Exactly the slots of the scope whose deadline has passed are told they stalled |
| Hub.HubShared.NeedsReconnect | client/src/client/subscription_hub.rs:899-922 | A reconnect is needed if and only if the scope is empty, a resync is pending, a slot is not covered, or more than 32 aliases are stale |
| Hub.HubShared.EnsureSupervisors | client/src/client/subscription_hub.rs:507-528 | Exactly the scopes with slots and no running supervisor get one, each with a token of its own that its entry points at |
| Scopes.MovingReconnectsNoSibling | client/src/client/subscription_hub.rs:547-565 | Once a slot has moved off a connection that covers the scope, for whatever cause and also when it asked for a resync itself, the siblings need a reconnect if and only if none is left or 32 aliases were stale already |
| Scopes.MovingReconnectsNoIsolated | client/src/client/subscription_hub.rs:547-565 | A slot that moves never changes whether another slot's own connection is reconnected |
| Scopes.ConnectionsNeverOutnumberSlots | client/src/client/subscription_hub.rs:17-19 | The connections that have subscriptions are no more than the subscriptions |
| Scopes.StallsExactlyTheLate | client/src/client/subscription_hub.rs:667-684 | The slots that become stalled are exactly those of the scope from which nothing came, since their last sign of life or their creation, for the threshold, and that are neither stalled nor refused nor over; nothing else changes |
| Scopes.AnswersExactlyTheAsking | client/src/client/subscription_hub.rs:577-597 | A snapshot answers exactly the resync requests of its scope: who asked asks no longer and no longer lags; no other slot changes |
| Scopes.RefusesExactlyTheListed | client/src/client/subscription_hub.rs:630-651 | A refusal reaches exactly the listed slots of the scope, and rejects each that has not ended |
| Scopes.RevivesExactlyTheListed | client/src/client/subscription_hub.rs:617-626 | A sign of life reaches exactly the listed slots of the scope, and each works from then on unless it lags or has ended |
| Scopes.EndsExactlyTheListed | client/src/client/subscription_hub.rs:600-607 | Exactly the listed slots leave, each with the given end unless it had one |
| Scopes.NextStallIsLater | client/src/client/subscription_hub.rs:807-825 | After stalls are reported, the next wakeup is none or later than now, so the loop does not spin |
| Drivers.OneDriverStep | client/src/client/subscription_hub.rs:507-541 | Every step keeps at most one supervisor for each connection, each the one its entry points at, and tokens are never reused |
| Drivers.NoDoubleDriver | client/src/client/subscription_hub.rs:507-541 | So it is in every state of every run |
| Drivers.NoOrphansStep | client/src/client/subscription_hub.rs:507-565 | Every step keeps every scope with slots supervised or a start of supervisors ahead |
| Drivers.NoOrphanedSubscription | client/src/client/subscription_hub.rs:208-244 | In every state of every run a scope with slots has a supervisor that keeps its token, or a thread has a start of supervisors ahead of it, also while a supervisor exits |
| Drivers.ExactlyOneDriver | client/src/client/subscription_hub.rs:1112-1163 | While no call is under way, every scope with slots has exactly one supervisor |
| Lifecycle.RegisteredIffNotEnded | client/src/client/subscription_hub.rs:600-607 | In every state of every run no registered slot has ended, every slot that left has, and every id given out is one or the other |
| Lifecycle.NothingReturns | client/src/client/subscription_hub.rs:216-234 | Over any stretch of any run ids are not reused, a slot that left keeps the end it came to, and isolation is not undone |
| Lifecycle.LeavesForItsReason | client/src/client/subscription_hub.rs:246-250 | A slot leaves only by being dropped, which cancels it, or by a stopped connection that listed it, for the reason it stopped |
| Lifecycle.OnlyOwnSlotsChange | client/src/client/subscription_hub.rs:617-684 | A supervisor changes no slot of another connection, nor a sibling it does not report on |
| Wakeups.InformedStep | client/src/client/subscription_hub.rs:719-751 | Every step keeps every supervisor whose connection no longer serves its scope informed: something is unread, or about to be published |
| Wakeups.NoLostWakeup | client/src/client/subscription_hub.rs:781-823 | In every run a connection whose supervisor has read everything, with nothing about to be published, covers all slots of its scope with no resync pending and at most 32 stale aliases, if and only if another connection has not ended its slot |
| Wakeups.NobodyWaitsInVain | client/src/client/subscription_hub.rs:755-778 | In every run a supervisor that waits to connect again, has read everything, with nothing about to be published, waits for all slots of its scope and for at least one, if and only if another connection has not ended its slot |
| Wakeups.NoLostWakeupInOrderlyRuns | client/src/client/subscription_hub.rs:781-823 | In runs in which stopped connections end only slots still on them, it always does |
| Wakeups.EndingTakesOnlyOwnSlots | client/src/client/subscription_hub.rs:612-615 | Ending the listed slots leaves every other supervised connection its slots if and only if no listed slot has moved to a supervised connection of its own |
| Races.WakeupCanBeLost | client/src/client/subscription_hub.rs:612-615 | A run ends at rest with a supervisor driving a connection for a slot that is gone |
| Losses.NoSilentLoss | client/src/client/subscription_hub.rs:693-716 | In every state of every run an event dropped for a registered slot and not made good since shows in its lag flag or its resync request, or a thread is about to set one |
| Losses.OnlyReplaysForgive | client/src/client/subscription_hub.rs:577-597 | A loss is forgotten only by a snapshot that takes a resync request of the slot |
| Losses.LossesWaitForTheConsumer | client/src/client/subscription_hub.rs:339-349 | At rest a loss shows in the lag flag, for the consumer to take once its queue is drained |
| Moves.MovesForItsReason | client/src/client/subscription_hub.rs:267-282 | In every state of every run, a slot on a connection of its own, or about to move there, has asked for a resync, or was found malformed or refused on the shared connection, as its recorded cause says |
| Lags.NoLagShowsForGood | client/src/client/subscription_hub.rs:699-716 | In every state of every run, a slot whose health shows a lag has its lag flag set or asks for a resync, or a thread is about to set one of them |
| Lags.LagsWaitForTheConsumer | client/src/client/subscription_hub.rs:339-349 | At rest a lag shows only while the lag flag is set, for the consumer to take once its queue is drained |
| Replays.AskingSlotsMove | client/src/client/subscription_hub.rs:267-282 | In every state of every run, a slot that asks for a resync on the shared connection is about to leave it |
| Replays.ReplayReachesSiblingsIff | client/src/client/subscription_hub.rs:899-922 | In every run, a shared connection that covers its slots with at most 32 stale aliases reconnects them when it looks if and only if a slot has asked for a replay and not yet left |
| Replays.ReplayCanReachSiblings | client/src/client/subscription_hub.rs:267-282 | A run in which the request of one slot reconnects its sibling |
| Stragglers.LostOnlyIfTakenBefore | client/src/client/subscription_hub.rs:954-966 | In every run an event for a slot is dropped only by a shared connection that found the slot there when it last looked; so for a slot that has left, only what that connection took before it left |
| Stragglers.LagsAgainIffHeld | client/src/client/subscription_hub.rs:18-20 | In every state of every run, a slot that has left the shared connection can lag again if and only if a shared connection has an event for it in hand, or a document it might fail to open |
| Stragglers.MovedSlotCanLagAgain | client/src/client/subscription_hub.rs:954-966 | A run in which a slot that has moved, and whose lag flag was taken, lags again |
| Routing.SortErrors | client/src/client/subscription_hub.rs:1401-1408 | The loop gives every owner exactly the errors at its alias, in order, and leaves the rest to the document |
| Routing.Route | client/src/client/subscription_hub.rs:1388-1440 | A response is broken if and only if its data is of the wrong kind or it carries neither data nor errors; otherwise every owner gets its own payload or its own errors, data winning over errors and errors over null |
| Routing.RoutedMeans | client/src/client/subscription_hub.rs:1388-1440 | By the paths of the errors alone: an owner gets its data unless they are null and it has errors, and otherwise exactly the errors whose path starts with its alias, in order; the document gets exactly the errors whose path starts with no known alias, in order |
| Routing.ErrorGoesByItsPath | client/src/client/subscription_hub.rs:1442-1447 | An error without a path, with an empty one or one that starts with an index or an unknown alias is the document's; any other is its owner's, however deep it lies, unless there are data |
| Routing.WholeMeans | client/src/client/subscription_hub.rs:1391-1399 | A response is whole if and only if its data are an object or missing, and it carries a member or an error |
| Routing.AssembledAliasesDiffer | client/src/client/subscription_hub.rs:1203-1212 | The alias map of an assembled connection gives every slot an alias of its own, which is what routing relies on |
| Dispatch.SharedConnection.Dispatch | client/src/client/subscription_hub.rs:925-1067 | On the shared connection, going through payloads, errors, signs of life and document errors in turn does to each slot what the frame says to that slot alone, and nothing to others; the wait after malformed events grows with every broken frame and is forgotten when a payload decodes |
| Dispatch.OwnConnection.Dispatch | client/src/client/subscription_hub.rs:925-1067 | On a slot's own connection a payload that does not decode counts as a malformed event and a refusal as a rejection, both of which make it reconnect; the slot stays, waits for room, and is told nothing else |
| Dispatch.AloneSendsUntilItFails | client/src/client/subscription_hub.rs:969-1016 | Over any sequence of frames such a connection sends its slot exactly the decoded payloads under its alias, in order, up to the first frame that is not handled; that frame sends no value |
| Dispatch.HandledMeans | client/src/client/subscription_hub.rs:943-1067 | A frame on such a connection is handled if and only if it is whole and either its payload for the slot decodes, or it says nothing about the slot and refuses nobody |
| FrameEffects.RejectionsAreTold | client/src/client/subscription_hub.rs:995-1046 | On the shared connection a frame that takes a slot into a rejection tells it why, with its own errors if it has any and the document's otherwise, or makes it lag if its queue is full; no other frame tells it an error |
| FrameEffects.RejectionsAreToldAlone | client/src/client/subscription_hub.rs:995-1046 | So it is on a connection of the slot's own, which waits for room |
| FrameEffects.OneErrorPerRejection | client/src/client/subscription_hub.rs:995-1046 | Over any life on either kind of connection, whatever else happens, a subscription whose queue has room is told as many errors as it enters rejections |
| FrameEffects.SharedFrameMoves | client/src/client/subscription_hub.rs:966-1016 | A slot leaves the shared connection if and only if its part of a frame fails, for the cause that is recorded; what finds its queue full is lost, and shows |
| FrameEffects.SharedFrameTells | client/src/client/subscription_hub.rs:954-1026 | What a frame tells the health of a slot on the shared connection: of a malformed event, a refusal, a loss or a sign of life, so that what holds over runs of events holds of frames |
| FrameEffects.SharedFrameShows | client/src/client/subscription_hub.rs:954-1026 | A frame that is accepted is a sign of life for whoever stays, a queued payload an update, and what went wrong is remembered |
| FrameEffects.OwnFrameTells | client/src/client/subscription_hub.rs:966-1067 | What a frame tells the health of a slot on a connection of its own |
| FrameEffects.OwnFrameShows | client/src/client/subscription_hub.rs:966-1067 | There too an accepted frame is a sign of life, a payload an update, and what went wrong is remembered |
| FrameEffects.OwnFrameKeeps | client/src/client/subscription_hub.rs:693-697 | On a connection of its own a slot stays, and loses nothing |
| FrameEffects.BrokenFrameMeans | client/src/client/subscription_hub.rs:934-952 | A broken frame is a failure of every slot on the connection, and nothing else |
| FrameEffects.RefusesAllMeans | client/src/client/subscription_hub.rs:1026-1052 | A frame refuses every slot if and only if it has a payload for none and an error whose path starts with no known alias |
| FrameEffects.WaitCountsBrokenFrames | client/src/client/subscription_hub.rs:1055-1060 | The wait after malformed events counts the broken frames since a payload last decoded for a slot on the connection |
| Dispatch.Demultiplexes | client/src/client/subscription_hub.rs:925-1016 | Over any accepted frames a slot with room is sent exactly the decoded payloads under its alias, in order, up to its first failing frame |
| Dispatch.SiblingsDoNotMatter | client/src/client/subscription_hub.rs:925-1016 | Frames that say the same to a slot send it the same values, whatever they say to its siblings |
| Dispatch.LastFrameSendsNoValue | client/src/client/subscription_hub.rs:943-952 | A frame that makes the connection reconnect sends nobody a value |
| Dispatch.ErrorsBeginRejections | client/src/client/subscription_hub.rs:995-1046 | A frame sends a slot at most one event, and an error only when it takes the slot into a rejection |
| Resume.Slot.Deliver | client/src/client/subscription_hub.rs:693-716 | An event is queued if there is room; otherwise a connection that waits tries again and a shared one drops it, which makes the slot lag; nothing is queued for a stream that is gone |
| Resume.Slot.PollNext | client/src/client/subscription_hub.rs:312-366 | The next event is taken, the cursor follows an entry that has one, and a slot that lags asks for a resync once its queue is drained; an empty queue is pending, or the end of the stream once nobody can send, and the end is final |
| Resume.Slot.ResumeAfter | client/src/client/subscription_hub.rs:253-261 | The cursor moves to that of an entry which has one, and stays otherwise |
| Resume.CursorIsTheLatest | client/src/client/subscription_hub.rs:253-261 | In every state of every run the subscription resumes after the last change or snapshot end it received |
| Resume.SafeIffNothingIsLost | client/src/client/subscription_hub.rs:693-716 | A step keeps every open connection, every rendered document and the queue in line with what the consumer has received if and only if it does not drop, from a full queue of a shared connection, something the consumer lacks |
| Resume.CursorPassesNothing | client/src/client/subscriptions.rs:173-191 | In runs that lose nothing in that way, the consumer has received everything up to its cursor, and up to the cursor of every document ever rendered, however connections are rebuilt, retried, cut or overlap |
| CursorRisk.AtRiskIffLost | client/src/client/subscription_hub.rs:693-716 | From such a state, a step makes it possible that the consumer, with no further loss, resumes after something it never received, if and only if the step loses something in that way |
| CursorRisk.NeverAtRiskIffNothingIsLost | client/src/client/subscription_hub.rs:253-261 | A run never comes to a state from which that is possible if and only if it loses nothing |
| ResumeLosses.CursorCanPassAnEntry | client/src/client/subscription_hub.rs:699-710 | A run in which the cursor passes an entry that was never received, and the resync asks for what comes after it |
| ServiceTypes.ParseServiceType | inspector/src/main.rs:135-163 | Filling the bytes in place reads all bytes after `0x` and a name otherwise, with the errors in the order the code checks them |
| ServiceTypes.ParseFilter | client/src/api/v1/graphql/services.rs:12-14 | The hexadecimal spelling of an id is read as the id; only the zero id is refused |
| ServiceTypes.NameMeans | client/src/api/v1/graphql/services.rs:27-32 | An id stands for a name if and only if it is that name of 1 to 32 printable characters, padded with zeros |
| ServiceTypes.ParseOfName | inspector/src/main.rs:135-163 | The name of an id is read as the id if and only if it does not start with `0x` |
| ServiceTypes.ParsedPrintsBack | inspector/src/main.rs:135-163 | An accepted name is the name of the id it is read as, and an accepted hexadecimal spelling is, but for case, the spelling of its id |
| ServiceTypes.HexRefusalsMean | inspector/src/main.rs:135-163 | After `0x`, exactly 64 hexadecimal digits are accepted, other than those of the zero id; the errors tell bad digits from a wrong number of bytes |
| ServiceTypes.NameRefusalsMean | inspector/src/main.rs:135-163 | Without it, exactly the names of 1 to 32 printable characters are accepted; the errors tell a wrong length in bytes from characters that are not printable |
| ServiceTypes.TrimsAllPrefixes | client/src/client/testing/mod.rs:467-471 | Every `0x` a string starts with is dropped, and nothing else |
| ServiceTypes.HexMatchesMeans | client/src/client/testing/mod.rs:467-471 | A string matches bytes if and only if, its `0x` prefixes dropped, it decodes to them |
| ServiceTypes.MatchesAtMostOne | client/src/client/testing/mod.rs:476-478 | A rendered service type matches at most one id |
| ServiceTypes.RenderedMatchesItself | client/src/client/testing/mod.rs:476-478 | The way Blokli renders an id matches that id and no other |
| Replica.ServiceEntryKeysDiffer | client/src/client/testing/mod.rs:177-179 | The key of an entry determines its service type and its node |
| Replica.SelectsItsOwn | client/src/client/testing/mod.rs:480-490 | An entry as Blokli renders it is selected exactly by its own type, its own node, both of them, or anything |
| Replica.UpdateTells | client/src/client/testing/mod.rs:1338-1367 | The kind of an update says whether the entry is new, changed or gone, and the update carries it if it is still there |
| Replica.VerdictMeans | client/src/client/testing/mod.rs:1418-1457 | A submission succeeds if and only if its mutator does and shrinks nothing that is guarded; the error is the mutator's or names what shrinks first |
| Replica.TestClient.BroadcastOrLog | client/src/client/testing/mod.rs:492-502 | An update is broadcast if and only if somebody listens and the slowest subscriber has left room, and lost otherwise |
| Replica.TestClient.BroadcastServiceChanges | client/src/client/testing/mod.rs:1333-1371 | Every change of the registry is told exactly once or lost, removals first, none is told that did not happen, and none is lost unless the channel filled up or nobody listens |
| Replica.TestClient.SimulateTxExecution | client/src/client/testing/mod.rs:1412-1563 | A submission whose mutator fails, or that removes what is guarded, changes nothing and tells nobody; any other takes effect and tells of its service changes |
| Replica.TestClient.InitialUpdates | client/src/client/testing/mod.rs:1180-1191 | The snapshot a subscription starts with makes an exact replica of the selected entries |
| Replica.TestClient.SubscribeServices | client/src/client/testing/mod.rs:1174-1200 | A subscription starts with that snapshot and listens from then on |
| Replica.ExactIffNothingMissed | client/src/client/testing/mod.rs:1333-1371 | After a submission an exact replica is exact again if and only if no lost change concerns its subscriber |
| Replica.ReplicaStaysExact | client/src/client/testing/mod.rs:1174-1200 | Over any sequence of registry changes and their broadcasts a replica is exact after every one of them if and only if no change that concerns its subscriber was lost |
| Replica.SubscriberStaysExact | client/src/client/testing/mod.rs:1412-1459 | Over any run of submissions, successful, failed or refused, a subscriber that started from its snapshot has an exact replica after every one of them if and only if no change that concerns it was lost |

## Left out

- HTTP, TLS, the SSE parser and the retries inside the SSE client: a connection is any sequence of events, errors and
  ends. A retry with the original document is a further opening with an old cursor in `Resume`.
- Tokio: tasks are interleaved steps that take no time. Liveness is not claimed; the theorems say what holds of every
  state, and of states at rest.
- The generation channel: its receivers see a counter of sends rather than the last value sent. A send without
  receivers counts too, which nobody can notice, because a receiver starts with everything seen.
- Text is a sequence of characters, so offsets count characters where the code counts bytes. The length of a service
  type name is counted in bytes of UTF-8, as in the code.
- `serde_json` and cynic: JSON is a datatype, decoding a payload is any partial function, and a document is any text
  with a variable map.
- Maps are iterated in any order rather than by key; nothing that is proved depends on it.
- Trackers are values inside the hub's state; the mutex a tracker shares with its health handle is not modelled, nor are
  the reads a handle makes.
- Hub.HubShared.RequestResync: the second section, moving the slot or publishing a generation, is a step of its own in
  `Protocol`, as it is in the code.
- Hub.HubShared.Register: publishing a generation and starting supervisors are steps of their own in `Protocol`.
- Hub.HubShared.EnsureSupervisors: spawning the tasks is the step `Subscribe` of each new supervisor in `Protocol`.
- Resume.Slot.PollNext: the first poll, which registers the slot, is `Hub.HubShared.Register`, and dropping the slot
  when the stream is over is `Hub.HubShared.Deregister`.
- Replica.TestClient.SimulateTxExecution: the broadcasts about accounts, channels, tickets, safes, service types and the
  registry configuration are left out; only the service entries come with the promise that whoever follows the updates
  has what a query would give.
- Dispatch.OwnConnection.Dispatch: the wait a supervisor starts with after its slot moved is not part of it.
- In `Protocol` a consumer may find its queue empty at any time, and streams are not kept apart once they are dropped;
  both only add runs.
- In `Protocol` a frame whose errors concern every slot looks the slots up once more, when it refuses them; that look is
  a further `TakeFrame`. A queue is full whenever it may be: `Protocol` does not count what it holds, which `Resume`
  does.
- In `Resume` a slot leaves the shared connection in the step that drains its queue, and that connection may still
  deliver one item it had in hand.
- In `Resume` an empty snapshot counts as saying that nothing is open, and a complete snapshot as covering every change
  up to its position; entries of a partial snapshot that close before the next one are the server's to report.
- `response_to_data`, error descriptions and logging: they merge and print texts.
- Transactions, queries, pagination, Curvy subscriptions, the inspector's tables and the fixtures: plumbing or flat
  field mapping.
