/**
 * The reference definition of a debate run: the calls the phase machine makes on its
 * participants and the events it emits, in order, as functions of the setup and of
 * what the participants answer.
 *
 * Two phase machines share it. `Engine` is the `Debate` class (a private THINK before
 * the opening, the `final` flag on the last turns, the judge's deliberation as a
 * THINK before the VERDICT, backend identifiers in the HEADER). `Conversation` is the
 * older `run_conversation` (the opening is a plain chat call, no `final` flag, no
 * deliberation THINK, no backend identifiers).
 *
 * A participant is an abstract interface: the oracle answers each call. Every call
 * made during the debated turns carries its turn number (0 for the opening, i + 1
 * for iteration i of the turn loop), so a stub may answer every turn differently.
 */
module Phases {
  import opened Wrappers
  import opened Events
  import opened Roles

  datatype Variant = Engine | Conversation

  /** What a run is started with; `outputs` is the number of registered listeners. */
  datatype Setup = Setup(
    variant: Variant,
    a: Persona,
    b: Persona,
    topic: string,
    premise: Option<string>,
    turns: int,
    judge: Option<Persona>,
    outputs: nat)

  /** The side framing of the opening prompt: "FOR" or "AGAINST" the premise. */
  datatype Framing = Framing(stance: string, premise: string)

  /** A request made to a participant. `final` is None where no flag is passed. */
  datatype Call =
    | PlanCall(agent: string, topic: string)
    | ThinkOpeningCall(agent: string, topic: string, premise: Option<string>, side: Option<string>, opponent: string)
    | OpeningCall(agent: string, topic: string, opponent: string, framing: Option<Framing>)
    | GreetingCall(agent: string, topic: string, opponent: string)
    | ThinkCall(agent: string, turn: nat, opponentMessage: string, final: Option<bool>)
    | RespondCall(agent: string, turn: nat, final: Option<bool>)
    | EvaluateCall(judge: string, turn: nat, speaker: string, statement: string)
    | ScoreCall(judge: string, turn: nat, speaker: string, first: bool)
    | VerdictCall(judge: string, names: seq<string>, premise: Option<string>, sides: map<string, string>)

  /** The judge's score: the `score` and `reasoning` keys, each possibly absent. */
  datatype ScoreReply = ScoreReply(score: Option<int>, reasoning: Option<string>)

  /** The judge's verdict: the `winner`, `scores`, `reasoning` and `deliberation` keys. */
  datatype VerdictReply = VerdictReply(
    winner: Option<string>,
    scores: Option<map<string, int>>,
    reasoning: Option<string>,
    deliberation: Option<string>)

  /**
   * What the participants answer, as a finite table per kind of request. A request
   * the table does not hold is answered with an empty text, a score reply without
   * keys or a verdict reply without keys: the parsed-JSON fallbacks of the agents.
   */
  datatype Oracle = Oracle(
    text: map<Call, string>,
    score: map<Call, ScoreReply>,
    verdict: map<Call, VerdictReply>)
  {
    /** The answer to a request for text, independent of any program state. */
    function Answer(c: Call): string {
      if c in text then text[c] else ""
    }

    function ScoreOf(c: Call): ScoreReply {
      if c in score then score[c] else ScoreReply(None, None)
    }

    function VerdictOf(c: Call): VerdictReply {
      if c in verdict then verdict[c] else VerdictReply(None, None, None, None)
    }
  }

  function ColorMapOf(s: Setup): map<string, string> {
    ColorMap(s.a, s.b, s.judge)
  }

  function SidesOfSetup(s: Setup): map<string, string> {
    SidesOf(s.a, s.b)
  }

  /** An event as `emit` builds it: the colour comes from the speaker. */
  function Emitted(s: Setup, kind: EventType, speaker: string, content: string, meta: Metadata): DebateEvent {
    DebateEvent(kind, speaker, content, ColorOf(ColorMapOf(s), speaker), meta)
  }

  // ---- SETUP ----

  function JudgeProfileOf(s: Setup): Option<JudgeProfile> {
    match s.judge
    case None => None
    case Some(j) =>
      Some(JudgeProfile(j.name, j.color, j.personality, j.judgingCriteria,
                        if s.variant == Engine then Some(j.model) else None))
  }

  function HeaderMetaOf(s: Setup): Metadata {
    HeaderMeta(
      s.topic,
      s.premise,
      SidesOfSetup(s),
      [s.a.name, s.b.name],
      ColorMapOf(s),
      map[s.a.name := s.a.personality][s.b.name := s.b.personality],
      if s.variant == Engine then Some(map[s.a.name := s.a.model][s.b.name := s.b.model]) else None,
      JudgeProfileOf(s))
  }

  function HeaderEvent(s: Setup): DebateEvent {
    Emitted(s, Header, "", "", HeaderMetaOf(s))
  }

  // ---- PLANNING ----

  function PlanCalls(s: Setup): seq<Call> {
    [PlanCall(s.a.name, s.topic), PlanCall(s.b.name, s.topic)]
  }

  function PlanEvents(s: Setup, o: Oracle): seq<DebateEvent> {
    [Emitted(s, Plan, s.a.name, o.Answer(PlanCall(s.a.name, s.topic)), NoMeta),
     Emitted(s, Plan, s.b.name, o.Answer(PlanCall(s.b.name, s.topic)), NoMeta)]
  }

  // ---- OPENING ----

  function ThinkOpeningOf(s: Setup): Call {
    ThinkOpeningCall(s.a.name, s.topic, s.premise, s.a.side, s.b.name)
  }

  /**
   * The engine frames its opening prompt FOR or AGAINST the premise when the first
   * debater has a side and there is a premise; the older runner only greets.
   */
  function OpeningOf(s: Setup): Call {
    if s.variant == Conversation then GreetingCall(s.a.name, s.topic, s.b.name)
    else
      var framing :=
        if Truthy(s.a.side) && Truthy(s.premise) then
          Some(Framing(if s.a.side.value == "for" then "FOR" else "AGAINST", s.premise.value))
        else None;
      OpeningCall(s.a.name, s.topic, s.b.name, framing)
  }

  function OpeningMessage(s: Setup, o: Oracle): string {
    o.Answer(OpeningOf(s))
  }

  function OpeningCalls(s: Setup): seq<Call> {
    (if s.variant == Engine then [ThinkOpeningOf(s)] else []) + [OpeningOf(s)]
  }

  function OpeningEvents(s: Setup, o: Oracle): seq<DebateEvent> {
    (if s.variant == Engine then [Emitted(s, Think, s.a.name, o.Answer(ThinkOpeningOf(s)), NoMeta)] else [])
    + [Emitted(s, Turn, s.a.name, OpeningMessage(s, o), NoMeta)]
  }

  // ---- per-turn judging ----

  function JudgeCalls(j: Persona, turn: nat, speaker: string, statement: string, first: bool): seq<Call> {
    [EvaluateCall(j.name, turn, speaker, statement), ScoreCall(j.name, turn, speaker, first)]
  }

  function JudgeEvents(s: Setup, o: Oracle, j: Persona, turn: nat, speaker: string, statement: string, first: bool): seq<DebateEvent> {
    var reply := o.ScoreOf(ScoreCall(j.name, turn, speaker, first));
    [Emitted(s, Think, j.name, o.Answer(EvaluateCall(j.name, turn, speaker, statement)), NoMeta),
     Emitted(s, Score, j.name, reply.reasoning.GetOr(""), ScoreMeta(speaker, reply.score))]
  }

  // ---- TURNS ----

  /** `range(turns - 1)` has this many iterations. */
  function Remaining(s: Setup): nat {
    if s.turns > 1 then s.turns - 1 else 0
  }

  /** `final = (i >= remaining - 2)`, passed only by the engine. */
  function FinalArg(s: Setup, i: nat): Option<bool> {
    if s.variant == Engine then Some(i >= s.turns - 3) else None
  }

  /** Iteration `i` is spoken by the second debater when `i` is even. */
  function Speaker(s: Setup, i: nat): Persona {
    if i % 2 == 0 then s.b else s.a
  }

  function RespondAt(s: Setup, i: nat): Call {
    RespondCall(Speaker(s, i).name, i + 1, FinalArg(s, i))
  }

  function TurnMessage(s: Setup, o: Oracle, i: nat): string {
    o.Answer(RespondAt(s, i))
  }

  /** The statement the speaker of iteration `i` reflects on: the one just before it. */
  function MessageBefore(s: Setup, o: Oracle, i: nat): string {
    if i == 0 then OpeningMessage(s, o) else TurnMessage(s, o, i - 1)
  }

  function ThinkAt(s: Setup, o: Oracle, i: nat): Call {
    ThinkCall(Speaker(s, i).name, i + 1, MessageBefore(s, o, i), FinalArg(s, i))
  }

  /** The scored set before iteration `i`, from the set `base` the loop starts with. */
  function ScoredBefore(s: Setup, base: set<string>, i: nat): set<string> {
    if i == 0 then base else ScoredBefore(s, base, i - 1) + {Speaker(s, i - 1).name}
  }

  /** Whether iteration `i` asks for a first score: its speaker is not in the scored set before it. */
  predicate FirstAt(s: Setup, base: set<string>, i: nat) {
    Speaker(s, i).name !in ScoredBefore(s, base, i)
  }

  /** The speaker of iteration `i` reflects on the statement before it, then responds. */
  function SpeechCalls(s: Setup, o: Oracle, i: nat): seq<Call> {
    [ThinkAt(s, o, i), RespondAt(s, i)]
  }

  function SpeechEvents(s: Setup, o: Oracle, i: nat): seq<DebateEvent> {
    [Emitted(s, Think, Speaker(s, i).name, o.Answer(ThinkAt(s, o, i)), NoMeta),
     Emitted(s, Turn, Speaker(s, i).name, TurnMessage(s, o, i), NoMeta)]
  }

  /** With a judge, the response of iteration `i` is judged. */
  function TurnJudgeCalls(s: Setup, o: Oracle, base: set<string>, i: nat): seq<Call> {
    if s.judge.Some? then JudgeCalls(s.judge.value, i + 1, Speaker(s, i).name, TurnMessage(s, o, i), FirstAt(s, base, i)) else []
  }

  function TurnJudgeEvents(s: Setup, o: Oracle, base: set<string>, i: nat): seq<DebateEvent> {
    if s.judge.Some? then JudgeEvents(s, o, s.judge.value, i + 1, Speaker(s, i).name, TurnMessage(s, o, i), FirstAt(s, base, i)) else []
  }

  function IterationCalls(s: Setup, o: Oracle, base: set<string>, i: nat): seq<Call> {
    SpeechCalls(s, o, i) + TurnJudgeCalls(s, o, base, i)
  }

  function IterationEvents(s: Setup, o: Oracle, base: set<string>, i: nat): seq<DebateEvent> {
    SpeechEvents(s, o, i) + TurnJudgeEvents(s, o, base, i)
  }

  /** The first `n` iterations of the turn loop. */
  function LoopCalls(s: Setup, o: Oracle, base: set<string>, n: nat): seq<Call> {
    if n == 0 then [] else LoopCalls(s, o, base, n - 1) + IterationCalls(s, o, base, n - 1)
  }

  function LoopEvents(s: Setup, o: Oracle, base: set<string>, n: nat): seq<DebateEvent> {
    if n == 0 then [] else LoopEvents(s, o, base, n - 1) + IterationEvents(s, o, base, n - 1)
  }

  /** One more iteration appends its calls and events. */
  lemma LoopStep(s: Setup, o: Oracle, base: set<string>, n: nat)
    ensures LoopEvents(s, o, base, n + 1) == LoopEvents(s, o, base, n) + IterationEvents(s, o, base, n)
    ensures LoopCalls(s, o, base, n + 1) == LoopCalls(s, o, base, n) + IterationCalls(s, o, base, n)
    ensures ScoredBefore(s, base, n + 1) == ScoredBefore(s, base, n) + {Speaker(s, n).name}
    ensures MessageBefore(s, o, n + 1) == TurnMessage(s, o, n)
    ensures Speaker(s, n + 2) == Speaker(s, n)
  {
  }

  // ---- VERDICT ----

  function VerdictCallOf(s: Setup): Call
    requires s.judge.Some?
  {
    VerdictCall(s.judge.value.name, [s.a.name, s.b.name], s.premise, SidesOfSetup(s))
  }

  function VerdictReplyOf(s: Setup, o: Oracle): VerdictReply
    requires s.judge.Some?
  {
    o.VerdictOf(VerdictCallOf(s))
  }

  function VerdictEvents(s: Setup, o: Oracle): seq<DebateEvent>
    requires s.judge.Some?
  {
    var j := s.judge.value;
    var r := VerdictReplyOf(s, o);
    (if s.variant == Engine && Truthy(r.deliberation) then [Emitted(s, Think, j.name, r.deliberation.value, NoMeta)] else [])
    + [Emitted(s, Verdict, j.name, r.reasoning.GetOr(""),
               VerdictMeta(r.winner, r.scores.GetOr(map[]), s.premise, PremiseUpheld(s.premise, r.winner, SidesOfSetup(s))))]
  }

  // ---- the whole run ----

  /** The scored set the turn loop starts with, after the opening was judged. */
  function LoopBase(s: Setup, scored: set<string>): set<string> {
    if s.judge.Some? then scored + {s.a.name} else scored
  }

  /** The judging of the opening statement, when there is a judge. */
  function OpeningJudgeCalls(s: Setup, o: Oracle, scored: set<string>): seq<Call> {
    if s.judge.Some? then JudgeCalls(s.judge.value, 0, s.a.name, OpeningMessage(s, o), s.a.name !in scored) else []
  }

  function OpeningJudgeEvents(s: Setup, o: Oracle, scored: set<string>): seq<DebateEvent> {
    if s.judge.Some? then JudgeEvents(s, o, s.judge.value, 0, s.a.name, OpeningMessage(s, o), s.a.name !in scored) else []
  }

  /** The verdict phase, when there is a judge. */
  function ClosingCalls(s: Setup): seq<Call> {
    if s.judge.Some? then [VerdictCallOf(s)] else []
  }

  function ClosingEvents(s: Setup, o: Oracle): seq<DebateEvent> {
    if s.judge.Some? then VerdictEvents(s, o) else []
  }

  /** Every call of a run, in order, from a scored set `scored` (empty for a fresh run). */
  function RunCalls(s: Setup, o: Oracle, scored: set<string>): seq<Call> {
    PlanCalls(s) + OpeningCalls(s) + OpeningJudgeCalls(s, o, scored)
    + LoopCalls(s, o, LoopBase(s, scored), Remaining(s)) + ClosingCalls(s)
  }

  /** Every event of a run, in emission order. */
  function RunEvents(s: Setup, o: Oracle, scored: set<string>): seq<DebateEvent> {
    [HeaderEvent(s)] + PlanEvents(s, o) + OpeningEvents(s, o) + OpeningJudgeEvents(s, o, scored)
    + LoopEvents(s, o, LoopBase(s, scored), Remaining(s)) + ClosingEvents(s, o)
  }

  /** Everything before the turn loop: header, planning, opening and its judging. */
  function PreludeCalls(s: Setup, o: Oracle, scored: set<string>): seq<Call> {
    PlanCalls(s) + OpeningCalls(s) + OpeningJudgeCalls(s, o, scored)
  }

  function PreludeEvents(s: Setup, o: Oracle, scored: set<string>): seq<DebateEvent> {
    [HeaderEvent(s)] + PlanEvents(s, o) + OpeningEvents(s, o) + OpeningJudgeEvents(s, o, scored)
  }

  /** A run is its prelude, its turn loop and its closing. */
  lemma RunSplit(s: Setup, o: Oracle, scored: set<string>)
    ensures RunEvents(s, o, scored) ==
      PreludeEvents(s, o, scored) + LoopEvents(s, o, LoopBase(s, scored), Remaining(s)) + ClosingEvents(s, o)
    ensures RunCalls(s, o, scored) ==
      PreludeCalls(s, o, scored) + LoopCalls(s, o, LoopBase(s, scored), Remaining(s)) + ClosingCalls(s)
  {
  }

  /** The scored set after a run. */
  function RunScored(s: Setup, scored: set<string>): set<string> {
    if s.judge.Some? then ScoredBefore(s, LoopBase(s, scored), Remaining(s)) else scored
  }
}
