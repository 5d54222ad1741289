# silicon-forum debate orchestration, modelled in Dafny

silicon-forum stages debates between language-model personas. Two debaters argue
a topic, optionally for and against a premise, and a judge may score every turn and give
a verdict at the end. This project models the orchestration core and proves properties
about it:

- **The phase machines.** The `Debate` class of `engine/debate.py` becomes the
  `DebateEngine.Debate` class. The older `run_conversation` of `conversation.py`
  becomes the `ConversationRunner` methods. Both emit typed events (HEADER, PLAN,
  THINK, TURN, SCORE, VERDICT) to a list of listeners. Each method is proved equal to
  one reference definition in `Phases`, which has an `Engine` variant and a
  `Conversation` variant. The properties of a run are proved about that definition in
  `PhaseProps`:
  - the exact order of event kinds;
  - turn alternation;
  - the window of the `final` flag;
  - when a first-impression score is requested;
  - the absence of judging without a judge;
  - event colours;
  - the first HEADER and the last VERDICT.
- **The participants.**
  - `EngineAgent.Agent` models the phase engine's agent (`engine/agents.py`): the
    system directive, the append-only conversation history, the three-attempt
    verdict-extraction protocol with its fallback, and the verdict sequence.
  - `PlainAgent.Agent` models the older agent of `agents.py`.
- **The event contract** (`Events`): the closed tag set, the event record's defaults,
  and the fan-out of every event to every listener in list order.
- **The event consumers.**
  - `Collector.ResultCollector` keeps the outcome of a debate.
  - `CsvExport` models the row flattening and the summary table.
  - `RunStats` and `Tallies` model the batch statistics: counts, partitions, per-name
    tallies in insertion order, and stable rankings (`Ranking`).
  - `HtmlReport` models the colour lookup, the two text filters and the page state of
    the HTML writer.
  - `PyText` writes out the Python string operations these use.

Model replies come from outside. A phase machine asks an `Oracle` (one table per kind
of request). The agent methods take the backend's replies as parameters. The
extraction protocol takes, per attempt, the reply text and its JSON decoding (`None`
when decoding raises). Nothing else is nondeterministic.

## Model

| member | source | states |
|---|---|---|
| PyText.Strip | engine/agents.py:20-29 | `str.strip()`: the result has no whitespace at either end. It is a slice of the input with only whitespace cut off both sides. It is empty exactly when the input is blank. |
| PyText.Words | outputs/html.py:36 | `str.split()` yields only non-empty words without whitespace. |
| PyText.WordsOfJoin | outputs/html.py:36 | Splitting a space-joined list of words gives back exactly those words. |
| PyText.JoinWordsSingleSpaced | outputs/html.py:36 | A space-joined list of words has every space alone between two word characters, and does not start with whitespace. |
| PyText.CollapseProperties | outputs/html.py:36 | `" ".join(s.split())` is single-spaced and stripped. It has the same words as `s`. Collapsing twice equals collapsing once. |
| PyText.SplitBlocks | outputs/html.py:30 | `split("\n\n")` always yields at least one block. |
| PyText.SplitBlocksShape | outputs/html.py:30 | No block of `split("\n\n")` contains a `"\n\n"` break. No block but the last ends with a newline, as the leftmost break always ends a block. The first block is a prefix of the text, followed by a break when more blocks follow. |
| PyText.SplitBlocksJoin | outputs/html.py:30 | Joining the blocks of `split("\n\n")` with `"\n\n"` restores the text. |
| PyText.Lower | outputs/html.py:44 | Lower-casing keeps the length and maps each character to its lower-case form. |
| ChatLog.Exchange | engine/agents.py:186-197 | Appending a user entry then an assistant entry keeps a history well-formed: one system entry first, then user/assistant pairs. |
| ChatLog.Restart | engine/agents.py:199-200 | `[history[0]]` has exactly one entry, the first entry of the history. |
| ChatLog.RestartRule | agents.py:35-36 | Resetting keeps the history well-formed. Resetting twice equals resetting once. |
| ChatLog.Kept | engine/agents.py:24-29 | `filter(None, [f.strip() ...])` keeps no more fields than given, each non-empty and stripped. |
| ChatLog.KeptSingle | engine/agents.py:24-29 | One field is kept, stripped, exactly when it is not blank. |
| ChatLog.KeptAppend | engine/agents.py:24-29 | Filtering a concatenation keeps what each part keeps, in order. With `KeptSingle`, the kept parts are exactly the non-blank fields, stripped, in field order. |
| ChatLog.DirectiveOfTwo | engine/agents.py:24-29 | With exactly two non-blank fields, the directive is the earlier field stripped, a blank line `"\n\n"`, then the later field stripped. |
| ChatLog.KeptEmpty | engine/agents.py:24-29 | Nothing is kept exactly when every field is blank. |
| ChatLog.DirectiveShape | engine/agents.py:24-29 | The joined directive is stripped. It is empty exactly when every field is blank. |
| ChatLog.DirectiveOfOne | agents.py:12-16 | With a single non-blank field, the directive is that field, stripped. |
| EngineAgent.DirectiveOf | engine/agents.py:24-29 | The engine agent's directive is built from personality, position, judging criteria and instructions. It is stripped, and empty exactly when all four are blank or absent. |
| EngineAgent.DirectiveOrder | engine/agents.py:24-29 | The directive is the `"\n\n"` join of what is kept of personality, position, judging criteria and instructions, in that order (each field stripped, dropped when blank). |
| EngineAgent.PersonalityThenCriteria | engine/agents.py:24-29 | With only a personality and judging criteria, the directive is the stripped personality, a blank line, then the stripped criteria. |
| EngineAgent.CriteriaOnly | engine/agents.py:24-29 | With only judging criteria configured, the directive is those criteria, stripped. |
| EngineAgent.Agent.constructor | engine/agents.py:16-34 | Sets the fields from the configuration: `color` defaults to "white"; personality and criteria are stripped; `side` is kept as given. The history is exactly one system entry holding the directive. |
| EngineAgent.Agent.Chat | engine/agents.py:186-197 | Appends exactly the user message, then the assistant reply, leaving earlier entries unchanged. Returns the appended reply and keeps the history well-formed. |
| EngineAgent.Agent.Reset | engine/agents.py:199-200 | The history becomes `[history[0]]` and stays well-formed. |
| EngineAgent.Missing | engine/agents.py:109-111 | The names without a score, in order; never more than the names. |
| EngineAgent.MissingRule | engine/agents.py:109-111 | A name is reported missing exactly when it is a name without a score. No name is missing exactly when every name has a score. |
| EngineAgent.MissingAll | engine/agents.py:109-111 | Against a result without scores (such as the `{}` a failed parse leaves), every name is missing. |
| EngineAgent.ProblemsRule | engine/agents.py:103-111 | Lists retry problems: one for a winner not among the names (always first), plus one per name without a score. There are none exactly when the result is acceptable. `{}` yields `1 + |names|` problems. |
| EngineAgent.Agent.ListProblems | engine/agents.py:103-111 | The loop builds exactly the problem list of `Problems`. |
| EngineAgent.FirstMax | engine/agents.py:131 | `max(names, key=...)` picks the first name whose score is at least every other and strictly above every earlier one. |
| EngineAgent.FirstMaxOfTwo | engine/agents.py:131 | With two debaters, the second wins the argmax exactly when it scored strictly higher; a tie goes to `names[0]`. |
| EngineAgent.FallbackRule | engine/agents.py:129-134 | Per path. With every score present, the scores stay and the winner is the first highest-scored name. Otherwise: a present winner and present scores are kept unchanged; an absent winner becomes `names[0]`; absent scores become 5 for every name. A present winner that is not a string (`null`, a number) counts as present and is kept. |
| EngineAgent.FallbackUsable | engine/agents.py:129-134 | The fallback is acceptable exactly when every name had a score, or when scores were absent and the winner was absent or a debater. |
| EngineAgent.StaleWinnerSurvives | engine/agents.py:132-134 | A concrete case: a winner outside the names with partial scores comes out of the fallback unchanged, so the result is not acceptable. |
| EngineAgent.NullWinnerSurvives | engine/agents.py:104-111 | A concrete case: a `null` winner with one score missing is reported as a winner problem plus one missing score. The fallback's `setdefault` then keeps the `null` winner (lines 132-134). |
| EngineAgent.AttemptsShape | engine/agents.py:98-126 | The protocol adds one user/assistant exchange per attempt made, at most three, on top of the starting history. The first exchange carries this attempt's prompt. An early return happens only with an acceptable result. A fallback follows all attempts. |
| EngineAgent.EarlyReturn | engine/agents.py:124-126 | The protocol returns at the first acceptable attempt, with exactly what it decoded, after one exchange per attempt made. |
| EngineAgent.ThreeFailures | engine/agents.py:117-134 | With no acceptable attempt, all three are made; a parse failure leaves `{}` and the loop goes on. The fallback works only from what the last attempt left. |
| EngineAgent.SecondPromptIsRetry | engine/agents.py:100-122 | After an unacceptable first attempt, the second prompt is a retry listing at least one problem. After a parse failure it lists every problem of `{}`. |
| EngineAgent.Agent.ExtractVerdictJson | engine/agents.py:77-137 | The loop ends with the result and history of the `Attempts` protocol, started from the current history and `{}`. |
| EngineAgent.LineFor | engine/agents.py:146-149 | A context line names the debater and the premise. It is FOR exactly when the side is "for". |
| EngineAgent.SideLinesRule | engine/agents.py:144-149 | The lines are only for debaters with a non-empty side, at most one per name. Every named debater with a side gets its line. |
| EngineAgent.ContextLinesRule | engine/agents.py:142-151 | There is no premise context unless both the premise and the side map are truthy. With both, there is exactly one line per named debater that has a side. |
| EngineAgent.Agent.PremiseContext | engine/agents.py:142-151 | The loop builds exactly the lines of `ContextLines`. |
| EngineAgent.VerdictGrowth | engine/agents.py:139-172 | A verdict adds between 6 and 10 history entries, an even number, and keeps the earlier history as a prefix. |
| EngineAgent.VerdictExchanges | engine/agents.py:153-171 | A verdict opens with the deliberation exchange (with the premise context) and closes with the announcement exchange. The result carries both replies as `deliberation` and `reasoning`. |
| EngineAgent.Agent.Verdict | engine/agents.py:139-172 | Result and history equal the `VerdictRun` definition, whose shape the two lemmas above state. |
| PlainAgent.DirectiveOf | agents.py:12-16 | The older agent's directive is built from personality, position and instructions. It is stripped, and empty exactly when all three are blank or absent. |
| PlainAgent.DirectiveOrder | agents.py:12-16 | The directive is the `"\n\n"` join of what is kept of personality, position and instructions, in that order (each field stripped, dropped when blank). |
| PlainAgent.PersonalityThenPosition | agents.py:12-16 | With only a personality and a position, the directive is the stripped personality, a blank line, then the stripped position. |
| PlainAgent.PositionOnly | agents.py:12-16 | With only a position configured, the directive is that position, stripped. |
| PlainAgent.Agent.constructor | agents.py:7-21 | Name and model are taken as given, and `color` defaults to "white". The history is exactly one system entry. |
| PlainAgent.Agent.Chat | agents.py:23-33 | Appends exactly the user message, then the assistant reply, and returns that reply. |
| PlainAgent.Agent.Reset | agents.py:35-36 | The history becomes `[history[0]]`. |
| Events.AllEventTypes | events.py:5-11 | There are exactly six distinct event tags, and every tag is one of them. |
| Events.NewEvent | events.py:14-20 | An event built from its tag alone has an empty speaker and content, colour "white", and empty metadata. |
| Events.FanOut | engine/debate.py:43-44 | One event reaches `n` listeners through `n` calls. |
| Events.FanOutAt | engine/debate.py:43-44 | The `k`-th call goes to listener `k`. |
| Events.BroadcastAt | engine/debate.py:43-44 | For a sequence of emitted events, call number `e*n + k` hands event `e` to listener `k`. So every event reaches every listener, in list order, before the next event reaches any. |
| Events.BroadcastConcat | engine/debate.py:43-44 | Emitting two runs of events one after the other makes the listener calls of each run, in order. |
| Roles.ColorMapRule | engine/debate.py:26-28 | The colour map holds both debaters and the judge. The judge's colour overrides a debater of the same name, the second debater's the first's. A speaker nobody is gets "white". |
| Roles.SidesRule | engine/debate.py:30 | The side map holds exactly the debaters with a truthy side, each with that side. |
| Roles.PremiseUpheld | engine/debate.py:123-128 | `premise_upheld` is decided exactly when premise and winner are truthy and the winner has a non-empty side. When decided, it is true exactly when that side is "for". |
| Roles.PremiseUpheldCases | conversation.py:78-83 | The same tri-state, by case: a "for" winner upholds, an "against" winner rejects, and a missing premise, winner or side leaves it undecided. |
| PhaseProps.RunKinds | engine/debate.py:145-153 | The kinds of a run, in order: HEADER, PLAN, PLAN; the engine's private THINK; TURN; THINK, SCORE with a judge; per iteration THINK, TURN (and THINK, SCORE with a judge); the engine's deliberation THINK when non-empty; VERDICT with a judge. |
| PhaseProps.OneTurnJudgedOrder | engine/debate.py:145-153 | A judged two-turn engine debate whose judge deliberates emits exactly HEADER PLAN PLAN THINK TURN THINK SCORE THINK TURN THINK SCORE THINK VERDICT. |
| PhaseProps.ConversationKinds | conversation.py:33-87 | The older runner starts HEADER, PLAN, PLAN, TURN, with no THINK before the opening. With an audience it ends SCORE, VERDICT, with no deliberation THINK. |
| PhaseProps.LoopTurnSpeakers | engine/debate.py:106-115 | Iteration `i` of the turn loop makes exactly one TURN, by the second debater on even `i` and the first on odd `i`. |
| PhaseProps.TurnAlternation | engine/debate.py:104-115 | There are `1 + max(0, turns - 1)` TURN events. Their speakers alternate, starting with the first debater. |
| PhaseProps.SixTurnsExample | conversation.py:66-73 | Six turns: the speakers are A, B, A, B, A, B. |
| PhaseProps.FinalOnLastTurns | engine/debate.py:107-111 | The engine passes `final = true` exactly on the last two iterations, each the last with its speaker. The older runner passes no flag. |
| PhaseProps.SixTurnsFinal | engine/debate.py:107-109 | Six engine turns: of the five iterations, exactly the fourth and fifth are final. |
| PhaseProps.RunRequests | engine/debate.py:145-153 | A judged run asks for `1 + max(0, turns - 1)` scores. The first is for the opening speaker; then one per iteration, for that iteration's speaker. |
| PhaseProps.InScoredBefore | engine/debate.py:99-100 | Before iteration `i`, the scored set is the starting set plus every earlier speaker; it only grows. |
| PhaseProps.FirstScoreOnce | engine/debate.py:99-100 | A score request is a first impression exactly when its target was not scored before the run and was not the target of an earlier request. |
| PhaseProps.FreshRunFirstScores | conversation.py:54-59 | In a fresh run only two first-impression scores are requested: for the opening speaker, and for the other debater on the next judged turn (when its name differs). |
| PhaseProps.NoJudgeNoJudging | engine/debate.py:149-153 | Without a judge, a run makes no evaluate, score or verdict request and emits no SCORE or VERDICT. |
| PhaseProps.EventColors | engine/debate.py:40 | Every event is coloured by its speaker's entry in the colour map, or "white" for a speaker nobody is. |
| PhaseProps.HeaderFirst | engine/debate.py:48-65 | The first event is the HEADER. It lists both debaters in order and carries the side map and the colour map. The judge profile is present exactly with a judge. Model identifiers are present exactly in the engine. |
| PhaseProps.VerdictLast | engine/debate.py:117-141 | A judged run ends with the judge's VERDICT, carrying the winner, the scores, the premise and the `premise_upheld` tri-state. In the engine, a non-empty deliberation comes just before it as the judge's THINK. |
| DebateEngine.Debate.constructor | engine/debate.py:8-31 | Stores the participants and builds the colour map and the side map. The scored set starts empty. |
| DebateEngine.Debate.Emit | engine/debate.py:35-44 | The event is coloured by its speaker and handed to every listener in list order. |
| DebateEngine.Debate.EmitHeader | engine/debate.py:48-65 | Emits the reference HEADER: topic, premise, sides, participants, colours, personalities, models, and the judge profile with its model. |
| DebateEngine.Debate.PlanningPhase | engine/debate.py:67-69 | Each debater plans, first debater first: two PLAN events. |
| DebateEngine.Debate.OpeningStatement | engine/debate.py:71-94 | The first debater's private THINK, then its opening TURN. The prompt is framed FOR or AGAINST the premise when it has a side and there is a premise. |
| DebateEngine.Debate.JudgeTurn | engine/debate.py:96-102 | An evaluate THINK, then a SCORE for the speaker. The first-impression flag is set exactly when the speaker was not yet scored. The speaker is then added to the scored set. |
| DebateEngine.Debate.Speak | engine/debate.py:110-112 | The speaker reflects on the previous statement, then responds, each with the `final` flag. |
| DebateEngine.Debate.TurnIteration | engine/debate.py:108-115 | One loop iteration: speak and, with a judge, be judged. |
| DebateEngine.Debate.Advance | engine/debate.py:108-115 | One iteration keeps the loop invariant: message, speaker and listener as after `i + 1` iterations. |
| DebateEngine.Debate.TurnLoop | engine/debate.py:104-115 | `max(0, turns - 1)` iterations alternate the speakers, starting with the second debater. It makes the reference loop's calls and events. |
| DebateEngine.Debate.DecidePremise | engine/debate.py:123-128 | Computes the `premise_upheld` tri-state. |
| DebateEngine.Debate.VerdictPhase | engine/debate.py:117-141 | One verdict request. Then the deliberation as a THINK when non-empty, then the VERDICT. |
| DebateEngine.Debate.Prelude | engine/debate.py:146-150 | Header, planning, opening and, with a judge, the judging of the opening. |
| DebateEngine.Debate.Run | engine/debate.py:145-153 | The listener calls and the participant requests are exactly those of the engine's reference run. |
| DebateEngine.RunDebate | engine/debate.py:156-165 | A fresh debate makes exactly the reference run's listener calls and requests. |
| ConversationRunner.Emit | conversation.py:22-31 | The inner `emit`: colour by speaker, then hand the event to every listener in list order. |
| ConversationRunner.EmitHeader | conversation.py:33-42 | The HEADER without a `models` key. The judge profile (without a model) is present only with an audience. |
| ConversationRunner.Planning | conversation.py:44-45 | Two PLAN events, first debater first. |
| ConversationRunner.Opening | conversation.py:47-52 | The opening is one chat call and one TURN, with no THINK. |
| ConversationRunner.JudgeTurn | conversation.py:56-61 | The inner `judge_turn`: evaluate, then score with `first` exactly for a speaker not yet scored, and add the speaker to the set. |
| ConversationRunner.Speak | conversation.py:68-70 | Think, then respond, with no `final` flag. |
| ConversationRunner.TurnIteration | conversation.py:67-73 | One loop iteration: speak and, with an audience, be judged. |
| ConversationRunner.TurnLoop | conversation.py:66-73 | `max(0, turns - 1)` alternating iterations, starting with the second debater. |
| ConversationRunner.VerdictPhase | conversation.py:75-87 | One verdict request and one VERDICT with the `premise_upheld` tri-state. There is no deliberation THINK. |
| ConversationRunner.Prelude | conversation.py:33-64 | Header, planning, opening and, with an audience, its judging. The scored set holds the opening speaker. |
| ConversationRunner.Maps | conversation.py:16-20 | The colour map (the audience's colour on top) and the map of truthy sides. |
| ConversationRunner.Run | conversation.py:33-87 | Exactly the listener calls and requests of the conversation's reference run. |
| ConversationRunner.RunConversation | conversation.py:5-87 | `run_conversation` makes exactly the reference run's listener calls and requests. |
| Collector.ResultCollector.constructor | outputs/collector.py:7-12 | The initial state has no winner, no premise and no `premise_upheld`, and empty scores and sides. |
| Collector.ResultCollector.Call | outputs/collector.py:14-21 | HEADER sets sides and premise. VERDICT sets winner, scores and `premise_upheld`. Other kinds change nothing. |
| Collector.LastEventWins | outputs/collector.py:14-21 | After any event sequence, sides and premise are those of the last HEADER, and the outcome is that of the last VERDICT. Initial values remain where no such event came. |
| CsvExport.FieldsDistinct | outputs/csv_export.py:4-20 | Fifteen column names, pairwise distinct. |
| CsvExport.Flatten | outputs/csv_export.py:23-53 | The flattened row has exactly the fifteen column keys. |
| CsvExport.TextOf | outputs/csv_export.py:24-26 | `row.get(key) or ""`: the value when present, else "". |
| CsvExport.UpheldCell | outputs/csv_export.py:47 | "" exactly for None, "TRUE" exactly for true, "FALSE" exactly for false. |
| CsvExport.ScoreCell | outputs/csv_export.py:50-51 | The score when the mapping has the name, else "". |
| CsvExport.WinnerSideRule | outputs/csv_export.py:30-35 | `winner_side` is "for" when the winner equals the for-debater (with missing values as ""). Otherwise "against" when it equals the against-debater, else "". |
| CsvExport.MissingWinnerQuirk | outputs/csv_export.py:24-35 | With neither a winner nor a for-debater, `winner_side` is "for". |
| CsvExport.FlattenRun | outputs/csv_export.py:38-52 | `run_num` holds the run number, or "" when missing. `first_speaker` and `transcript_filename` hold the row's values, or "" when missing. |
| CsvExport.FlattenCells | outputs/csv_export.py:24-41 | `agent_for` and `agent_against` hold the row's names, or "" when missing. |
| CsvExport.FlattenModels | outputs/csv_export.py:40-42 | `model_for` and `model_against` hold the row's values, or "" when missing. |
| CsvExport.FlattenJudge | outputs/csv_export.py:43-44 | `judge` and `model_judge` hold the row's values, or "" when missing. |
| CsvExport.FlattenOutcome | outputs/csv_export.py:26-48 | `winner` and `premise` hold the row's values, or "" when missing. `premise_upheld` reads TRUE, FALSE or "" for true, false and unknown. |
| CsvExport.FlattenScores | outputs/csv_export.py:50-51 | `score_for` and `score_against` hold the debaters' scores when present, else "". |
| CsvExport.SummaryCsv.constructor | outputs/csv_export.py:59-61 | No rows and an empty table. |
| CsvExport.SummaryCsv.AddRow | outputs/csv_export.py:63-65 | The row is appended last, with earlier rows unchanged. The table is one flattened record per row, in order. |
| CsvExport.SummaryCsv.Finalize | outputs/csv_export.py:67-68 | Changes nothing. |
| CsvExport.SummaryCsv.Flush | outputs/csv_export.py:70-76 | Rewrites the table as one flattened record per row, in order, with the rows unchanged. |
| HtmlReport.Css | outputs/html.py:43-44 | Every result is a colour of the eight-entry table, or "#666666". |
| HtmlReport.CssRule | outputs/html.py:43-44 | The lookup ignores case. A table name gets its table colour. A name whose lower-case form is not in the table gets "#666666". |
| HtmlReport.TableLowercase | outputs/html.py:9-18 | Every table key is lower-case, so every entry can be reached. |
| HtmlReport.WordwrapCollapse | outputs/html.py:34-36 | The output has the same words as the input, is stripped, and has every space alone between two word characters. |
| HtmlReport.WordwrapCollapseIdempotent | outputs/html.py:34-36 | Collapsing twice equals collapsing once. |
| HtmlReport.Kept | outputs/html.py:30 | The kept paragraphs are non-empty, single-spaced and stripped, at most one per block. |
| HtmlReport.NoParagraphs | outputs/html.py:28-31 | A text has no paragraphs exactly when it is blank. |
| HtmlReport.OneParagraphPerBlock | outputs/html.py:30 | A non-blank block adds exactly one paragraph, its whitespace collapsed, in its place. |
| HtmlReport.Escape | outputs/html.py:31 | Escaped text contains no `<` or `>`. |
| HtmlReport.EscapeRoundTrip | outputs/html.py:31 | Unescaping undoes escaping. |
| HtmlReport.ElementsRoundTrip | outputs/html.py:31 | Reading a run of `<p>` elements back gives the paragraphs, in order. |
| HtmlReport.ParagraphsRoundTrip | outputs/html.py:28-31 | The `paragraphs` filter's markup reads back as the paragraph texts: the non-blank blocks of the stripped text, collapsed, in order. It is empty exactly when the text is blank. |
| HtmlReport.CssMap | outputs/html.py:62-65 | The CSS colour map has the same names, each mapped through the lookup. |
| HtmlReport.Cards | outputs/html.py:67-74 | One participant card per participant name. |
| HtmlReport.CardsRule | outputs/html.py:67-74 | Card `i` carries name `i`, its CSS colour or "#666", and its personality or "". |
| HtmlReport.LogIsTranscript | outputs/html.py:76-97 | The page log holds one entry per PLAN, THINK, TURN and SCORE event, in arrival order, with its kind, speaker and content. HEADER and VERDICT add nothing. |
| HtmlReport.StepAppends | outputs/html.py:76-101 | Each event leaves earlier log entries unchanged. It adds one entry exactly for a logged kind. |
| HtmlReport.ScoreTargetColor | outputs/html.py:88-97 | A SCORE entry's target colour comes from the last earlier HEADER, or is "#666" when unknown. |
| HtmlReport.LastHeaderWins | outputs/html.py:60-74 | Topic, colours and participant cards are those of the last HEADER, in its participant order; blank before any. |
| HtmlReport.HeaderKept | outputs/html.py:76-101 | Events other than HEADER leave topic, colours and participants unchanged. |
| HtmlReport.LastVerdictWins | outputs/html.py:99-101 | The verdict box shows the last VERDICT's speaker, CSS colour and content; none before any. |
| HtmlReport.HtmlOutput.constructor | outputs/html.py:48-55 | A blank page. |
| HtmlReport.HtmlOutput.Call | outputs/html.py:57-101 | The page after one event is the `Step` of the page before. The lemmas above state its properties. |
| Ranking.SortRule | outputs/stats.py:25-35 | `sorted(..., reverse=True)` yields descending keys. It is a permutation of its input. Entries with equal keys keep their input order. |
| Tallies.PutOrdered | outputs/stats.py:15-16 | Storing a key keeps the dictionary's insertion order. A new key goes last, and each key is listed once. |
| Tallies.TotalsOf | outputs/stats.py:17-24 | Wins never exceed appearances, appearances never exceed the seats counted, and scored appearances never exceed appearances. |
| Tallies.DebaterCounts | outputs/stats.py:10-24 | For every non-empty key, the tally holds its appearances, wins, score sum and score count over all seats. Its side is the side of its first seat. The empty key and absent keys have no tally. |
| Tallies.DebaterBookOrdered | outputs/stats.py:15-16 | Each key is listed once, in order of first appearance. |
| Tallies.AddSeat | outputs/stats.py:12-24 | One seat: nothing without a name, else a new or updated tally under it. |
| Tallies.TallyDebaters | outputs/stats.py:10-24 | The loops build exactly the debater book (by name, or by model as in lines 83-98). |
| Tallies.OutcomesBound | outputs/stats.py:47-50 | Upheld plus rejected verdicts never exceed the verdicts. |
| Tallies.JudgeCounts | outputs/stats.py:39-50 | For every non-empty key, the tally counts the rows it judged, and among them those that upheld and those that rejected. Only exact true/false outcomes count. A key that judged nothing has no tally. |
| Tallies.JudgeBookOrdered | outputs/stats.py:43-44 | Each judge key is listed once, in order of first appearance. |
| Tallies.TallyJudges | outputs/stats.py:39-50 | The loop builds exactly the judge book (by name, or by model as in lines 112-123). |
| RunStats.RateBounds | outputs/stats.py:30 | A rate of `a <= b` over `b > 0` lies between 0 and 1. |
| RunStats.Completed | outputs/stats.py:3 | Only rows with a known outcome, never more than the rows. |
| RunStats.Decided | outputs/stats.py:4-5 | Never more than the rows. |
| RunStats.OutcomePartition | outputs/stats.py:3-5 | Upheld plus rejected equals completed. Filtering the completed rows by outcome equals filtering all rows. |
| RunStats.UpholdRateRule | outputs/stats.py:6 | The uphold rate is None exactly when no row completed, else between 0 and 1. |
| RunStats.DebaterOrderRule | outputs/stats.py:25-35 | One line per tallied key, by descending win rate, with a missing rate counted as 0. |
| RunStats.DebaterOrderStable | outputs/stats.py:25-35 | The sorted lines are a permutation of the lines in insertion order. Lines with equal win rates keep the order in which their keys first appeared. |
| RunStats.DebaterLines | outputs/stats.py:25-35 | Each line is a key that appears. Its `n`, `wins`, `win_rate` and `avg_score` are counted over every seat, and wins never exceed `n`. `avg_score` is None exactly when no score was seen. A debater's side is that of its first seat. |
| RunStats.JudgeSummary | outputs/stats.py:53-64 | `completed` is upheld plus rejected. The uphold rate is None exactly when nothing completed; otherwise it is upheld over completed, between 0 and 1. The bias is present exactly when both the rate and the overall rate are, and is their difference. |
| RunStats.BuildJudges | outputs/stats.py:51-64 | The loop builds one summary line per sorted tally, in order. |
| RunStats.JudgeLines | outputs/stats.py:51-64 | Lines are ordered by descending `n`, with ties in order of first appearance. Each counts the rows its key judged and their outcomes, with completed at most `n`. |
| RunStats.JudgeRates | outputs/stats.py:53-55 | Each judge line's uphold rate is the share of its decided verdicts that upheld the premise, counted over the rows it judged; it is None when it decided none. Its bias is that rate minus the batch's rate, present when both are. |
| RunStats.OrderRows | outputs/stats.py:67 | Every kept row has both a first speaker and a winner. |
| RunStats.OrderRule | outputs/stats.py:67-79 | The order effect is None exactly when no row has both a first speaker and a winner. Otherwise first wins plus second wins equals `n`, and the two rates add up to 1. |
| RunStats.RatesAddUp | outputs/stats.py:76-78 | Two counts that add up to `n` have rates that add up to 1. |
| RunStats.SideRows | outputs/stats.py:140 | Only rows with a truthy winner are kept, never more than given. |
| RunStats.SideWinsBound | outputs/stats.py:141-142 | When no row pits a debater against itself, the for-wins and against-wins together are at most the rows. |
| RunStats.SidesRule | outputs/stats.py:140-150 | `n` is the number of rows with a winner, and each side's wins are at most `n`. The rates are None exactly when `n` is 0. The two sides' wins add up to at most `n` when no row pits a debater against itself. |
| RunStats.Compute | outputs/stats.py:1-164 | The loops and comprehensions produce exactly the statistics of `StatsOf`. |
| RunStats.StatsTotals | outputs/stats.py:152-157 | `total` is the number of rows. Upheld plus rejected equals completed, which is at most `total`. The uphold rate is None exactly when nothing completed, else upheld over completed. |

## Left out

- The generation backend: the OpenAI client, the Ollama endpoint and the network calls of `chat`. A reply is a parameter of `Chat`, a per-attempt input of the extraction protocol, or an `Oracle` answer in the phase machines.
- An oracle answer depends only on the request. A request carries the agent's name, the turn number and the relevant inputs, but not the whole conversation history. Two requests equal in those fields (two debaters with one name) get one answer.
- `_parse_json` (fence stripping and `json.loads`) is not modelled. A `Try` holds its outcome: the decoded winner and scores keys, or `None` when it raises. Keys other than `winner` and `scores` are ignored. A `winner` value that is not a string is kept as present without its value; the retry prompt would quote that value, and prompt wording is not modelled. Non-integer scores and non-object JSON are not modelled. A `scores` value that is not a mapping is not modelled either. With `"scores": null`, the membership tests on `result.get("scores", {})` (engine/agents.py:110 and :125) raise TypeError outside the `try`, so the error escapes `verdict`. With a string value, those tests become substring tests. The model's `scores` key is always absent or a mapping.
- Exceptions raised by `chat` itself (a backend error) are not modelled. In the source they are swallowed by the same `except Exception` as a parse failure, after the user entry was appended but before the assistant entry.
- The prompt wording is not modelled. Prompts are structured values carrying what they are built from: names, problems, premise context lines and the FOR/AGAINST framing.
- The warning printed after a fallback.
- Participant calls that raise outside the extraction loop are not modelled. Every oracle answer exists, so every modelled run reaches its end. In the source, `score` returns `_parse_json` of its reply unguarded (engine/agents.py:75). A reply that is not JSON therefore raises out of `_judge_turn` (engine/debate.py:99) and aborts `run()` after a partial event stream, with no VERDICT. A backend error in any participant call does the same. The run properties (`PhaseProps.RunKinds`, `PhaseProps.VerdictLast`, `PhaseProps.RunRequests` and the rest) hold for runs in which every call returns.
- `think_opening`, `think(..., final=...)` and `respond(final=...)` are called by `engine/debate.py` but do not exist with those signatures in `engine/agents.py`. `conversation.py` calls `plan`, `evaluate`, `score` and `verdict` on the `agents.py` agent, which has none of them. It also reads attributes that agent does not define (agents.py:7-21): `a.side` at conversation.py:20, `a.personality` at line 36, and `audience.judging_criteria` at line 41. As written, `run_conversation` raises AttributeError at line 20, before the HEADER, and emits no event. `ConversationRunner` gives each participant these fields through `Persona` and models the run the code evidently intends. Every participant call of the phase machines is therefore an abstract request answered by the oracle; the agents' own `plan`, `evaluate`, `score`, `think` and `respond` prompts are not modelled.
- The `json_mode` flag of the engine agent's `chat` is backend configuration and is not modelled.
- File writes and templates: the CSV file, the HTML template rendering and the page file. The CSV table is kept as the list of flattened records; the HTML page as the values handed to the template.
- The terminal console, terminal statistics, summary writer, command-line scripts, agent pool and batch runner are not part of this model. They are printing, file I/O and random choice.
- `RunStats.DebaterLines`: avg_score is the exact quotient; Python's round(..., 1) and the floating-point division are not modelled.
- `RunStats.JudgeSummary`: the bias is the exact difference of rates; `round(bias, 3)` is not modelled.
- `PyText.Lower`: lower-cases ASCII letters only. The colour table's keys are ASCII, so the lookup result is the same for ASCII names; non-ASCII case mappings are not modelled.
- `HtmlReport.HtmlOutput.Call`: requires the metadata a HEADER or SCORE is read with. Those events carry it by construction; the KeyError a malformed event would raise is not modelled.
- `EngineAgent.Agent.ExtractVerdictJson`: requires at least two names. The prompt reads `names[1]` and raises IndexError otherwise; that path is not modelled.
- `CsvExport.Flatten`: a missing `scores` key and a `scores` value of None are both read as the empty mapping; the run number is optional.
- The per-row `scores` value of a result row is a mapping from names to integers. Scores of other JSON types are not modelled.
