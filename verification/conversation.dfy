/**
 * The older phase machine, `run_conversation`: one function whose local state is the
 * current message, the speaker and listener, and the set of speakers the audience
 * has already scored. Its inner `emit` and `judge_turn` become methods that take
 * and return that state.
 *
 * Every method is proved to do exactly what the reference definition of `Phases`
 * says for the conversation variant: the listener calls it makes, in order, and (as
 * a ghost result) the requests it makes to the participants.
 */
module ConversationRunner {
  import opened Wrappers
  import opened Events
  import opened Roles
  import opened Phases

  /** The local state every inner step sees: the setup, its colour map and side map. */
  ghost predicate Ready(s: Setup, colorMap: map<string, string>, sides: map<string, string>) {
    s.variant == Conversation && colorMap == ColorMapOf(s) && sides == SidesOfSetup(s)
  }

  /**
   * `emit`: builds the event, coloured by its speaker ("white" for a speaker nobody
   * is), and hands it to every listener in list order.
   */
  method Emit(s: Setup, colorMap: map<string, string>, kind: EventType, speaker: string, content: string, meta: Metadata)
    returns (ds: seq<Delivery>)
    requires colorMap == ColorMapOf(s)
    ensures ds == Broadcast([Emitted(s, kind, speaker, content, meta)], s.outputs)
  {
    var color := if speaker in colorMap then colorMap[speaker] else "white";
    var event := DebateEvent(kind, speaker, content, color, meta);
    ds := [];
    for k := 0 to s.outputs
      invariant ds == FanOut(event, k)
    {
      ds := ds + [Delivery(k, event)];
    }
    assert [event][..0] == [];
  }

  /** The HEADER: topic, premise, sides, participants, colours, personalities and the audience. */
  method EmitHeader(s: Setup, colorMap: map<string, string>, sides: map<string, string>) returns (ds: seq<Delivery>)
    requires Ready(s, colorMap, sides)
    ensures ds == Broadcast([HeaderEvent(s)], s.outputs)
  {
    var judgeProfile := None;
    if s.judge.Some? {
      var j := s.judge.value;
      judgeProfile := Some(JudgeProfile(j.name, j.color, j.personality, j.judgingCriteria, None));
    }
    ds := Emit(s, colorMap, Header, "", "", HeaderMeta(
      s.topic,
      s.premise,
      sides,
      [s.a.name, s.b.name],
      colorMap,
      map[s.a.name := s.a.personality][s.b.name := s.b.personality],
      None,
      judgeProfile));
  }

  /** Each debater plans, first debater first. */
  method Planning(s: Setup, colorMap: map<string, string>, sides: map<string, string>, o: Oracle)
    returns (ds: seq<Delivery>, ghost cs: seq<Call>)
    requires Ready(s, colorMap, sides)
    ensures ds == Broadcast(PlanEvents(s, o), s.outputs)
    ensures cs == PlanCalls(s)
  {
    var request := PlanCall(s.a.name, s.topic);
    var plan := o.Answer(request);
    cs := [request];
    var first := Emit(s, colorMap, Plan, s.a.name, plan, NoMeta);
    request := PlanCall(s.b.name, s.topic);
    plan := o.Answer(request);
    cs := cs + [request];
    var second := Emit(s, colorMap, Plan, s.b.name, plan, NoMeta);
    ds := first + second;
    ghost var es := PlanEvents(s, o);
    BroadcastConcat([es[0]], [es[1]], s.outputs);
    assert es == [es[0]] + [es[1]];
  }

  /** The first debater opens with a plain greeting prompt; there is no private THINK. */
  method Opening(s: Setup, colorMap: map<string, string>, sides: map<string, string>, o: Oracle)
    returns (message: string, ds: seq<Delivery>, ghost cs: seq<Call>)
    requires Ready(s, colorMap, sides)
    ensures message == OpeningMessage(s, o)
    ensures ds == Broadcast(OpeningEvents(s, o), s.outputs)
    ensures cs == OpeningCalls(s)
  {
    var request := GreetingCall(s.a.name, s.topic, s.b.name);
    message := o.Answer(request);
    cs := [request];
    ds := Emit(s, colorMap, Turn, s.a.name, message, NoMeta);
  }

  /**
   * `judge_turn`: the audience evaluates the statement, then scores its speaker,
   * asking for a first score exactly when the speaker is not yet in `scored`; the
   * speaker is then added to `scored`.
   */
  method JudgeTurn(s: Setup, colorMap: map<string, string>, sides: map<string, string>, o: Oracle,
                   turn: nat, speakerName: string, statement: string, scored: set<string>)
    returns (ds: seq<Delivery>, ghost cs: seq<Call>, scored': set<string>)
    requires Ready(s, colorMap, sides) && s.judge.Some?
    ensures ds == Broadcast(JudgeEvents(s, o, s.judge.value, turn, speakerName, statement, speakerName !in scored), s.outputs)
    ensures cs == JudgeCalls(s.judge.value, turn, speakerName, statement, speakerName !in scored)
    ensures scored' == scored + {speakerName}
  {
    var j := s.judge.value;
    var request := EvaluateCall(j.name, turn, speakerName, statement);
    var evaluation := o.Answer(request);
    cs := [request];
    var first := Emit(s, colorMap, Think, j.name, evaluation, NoMeta);
    var scoreRequest := ScoreCall(j.name, turn, speakerName, speakerName !in scored);
    var result := o.ScoreOf(scoreRequest);
    cs := cs + [scoreRequest];
    scored' := scored + {speakerName};
    var reasoning := if result.reasoning.Some? then result.reasoning.value else "";
    var second := Emit(s, colorMap, Score, j.name, reasoning, ScoreMeta(speakerName, result.score));
    ds := first + second;
    ghost var es := JudgeEvents(s, o, j, turn, speakerName, statement, speakerName !in scored);
    BroadcastConcat([es[0]], [es[1]], s.outputs);
    assert es == [es[0]] + [es[1]];
  }

  /** The speaker reflects on the statement before it, then responds; no `final` flag. */
  method Speak(s: Setup, colorMap: map<string, string>, sides: map<string, string>, o: Oracle,
               i: nat, message: string, speaker: Persona)
    returns (reply: string, ds: seq<Delivery>, ghost cs: seq<Call>)
    requires Ready(s, colorMap, sides)
    requires message == MessageBefore(s, o, i) && speaker == Speaker(s, i)
    ensures reply == TurnMessage(s, o, i)
    ensures ds == Broadcast(SpeechEvents(s, o, i), s.outputs)
    ensures cs == SpeechCalls(s, o, i)
  {
    var request := ThinkCall(speaker.name, i + 1, message, None);
    var thought := o.Answer(request);
    cs := [request];
    var first := Emit(s, colorMap, Think, speaker.name, thought, NoMeta);
    request := RespondCall(speaker.name, i + 1, None);
    reply := o.Answer(request);
    cs := cs + [request];
    var second := Emit(s, colorMap, Turn, speaker.name, reply, NoMeta);
    ds := first + second;
    ghost var es := SpeechEvents(s, o, i);
    BroadcastConcat([es[0]], [es[1]], s.outputs);
    assert es == [es[0]] + [es[1]];
  }

  /** One iteration of the turn loop: speak and, with an audience, be judged. */
  method TurnIteration(s: Setup, colorMap: map<string, string>, sides: map<string, string>, o: Oracle,
                       ghost base: set<string>, i: nat, message: string, speaker: Persona, scored: set<string>)
    returns (reply: string, ds: seq<Delivery>, ghost cs: seq<Call>, scored': set<string>)
    requires Ready(s, colorMap, sides)
    requires message == MessageBefore(s, o, i) && speaker == Speaker(s, i)
    requires s.judge.Some? ==> scored == ScoredBefore(s, base, i)
    ensures reply == TurnMessage(s, o, i)
    ensures ds == Broadcast(IterationEvents(s, o, base, i), s.outputs)
    ensures cs == IterationCalls(s, o, base, i)
    ensures scored' == if s.judge.Some? then scored + {speaker.name} else scored
  {
    reply, ds, cs := Speak(s, colorMap, sides, o, i, message, speaker);
    var judged: seq<Delivery> := [];
    ghost var judgeCalls: seq<Call> := [];
    scored' := scored;
    if s.judge.Some? {
      judged, judgeCalls, scored' := JudgeTurn(s, colorMap, sides, o, i + 1, speaker.name, reply, scored);
    }
    BroadcastConcat(SpeechEvents(s, o, i), TurnJudgeEvents(s, o, base, i), s.outputs);
    ds, cs := ds + judged, cs + judgeCalls;
  }

  /** The turn loop after `i` iterations from the scored set `base`. */
  ghost predicate LoopAt(s: Setup, o: Oracle, base: set<string>, i: nat, ds: seq<Delivery>, cs: seq<Call>,
                         scored: set<string>, message: string, speaker: Persona, listener: Persona)
  {
    && i <= Remaining(s)
    && ds == Broadcast(LoopEvents(s, o, base, i), s.outputs)
    && cs == LoopCalls(s, o, base, i)
    && scored == (if s.judge.Some? then ScoredBefore(s, base, i) else base)
    && message == MessageBefore(s, o, i)
    && speaker == Speaker(s, i) && listener == Speaker(s, i + 1)
  }

  /** One iteration of the loop, with its deliveries and requests appended. */
  method Advance(s: Setup, colorMap: map<string, string>, sides: map<string, string>, o: Oracle,
                 ghost base: set<string>, i: nat, ds: seq<Delivery>, ghost cs: seq<Call>,
                 scored: set<string>, message: string, speaker: Persona, listener: Persona)
    returns (ds': seq<Delivery>, ghost cs': seq<Call>, scored': set<string>, reply: string)
    requires Ready(s, colorMap, sides) && i < Remaining(s)
    requires LoopAt(s, o, base, i, ds, cs, scored, message, speaker, listener)
    ensures LoopAt(s, o, base, i + 1, ds', cs', scored', reply, listener, speaker)
  {
    var turnDeliveries; ghost var turnCalls;
    reply, turnDeliveries, turnCalls, scored' := TurnIteration(s, colorMap, sides, o, base, i, message, speaker, scored);
    LoopStep(s, o, base, i);
    BroadcastConcat(LoopEvents(s, o, base, i), IterationEvents(s, o, base, i), s.outputs);
    ds', cs' := ds + turnDeliveries, cs + turnCalls;
  }

  /** Before the first iteration: nothing emitted, the opening message, the second debater to speak. */
  lemma LoopStart(s: Setup, o: Oracle, base: set<string>)
    ensures LoopAt(s, o, base, 0, [], [], base, OpeningMessage(s, o), s.b, s.a)
  {
    assert LoopEvents(s, o, base, 0) == [];
  }

  /** `turns - 1` iterations alternate the speakers, starting with the second debater. */
  method TurnLoop(s: Setup, colorMap: map<string, string>, sides: map<string, string>, o: Oracle,
                  openingMessage: string, scored: set<string>)
    returns (ds: seq<Delivery>, ghost cs: seq<Call>, scored': set<string>)
    requires Ready(s, colorMap, sides)
    requires openingMessage == OpeningMessage(s, o)
    ensures ds == Broadcast(LoopEvents(s, o, scored, Remaining(s)), s.outputs)
    ensures cs == LoopCalls(s, o, scored, Remaining(s))
    ensures scored' == if s.judge.Some? then ScoredBefore(s, scored, Remaining(s)) else scored
  {
    ds, cs, scored' := [], [], scored;
    var message := openingMessage;
    var speaker, listener := s.b, s.a;
    var i := 0;
    LoopStart(s, o, scored);
    while i < s.turns - 1
      invariant 0 <= i
      invariant LoopAt(s, o, scored, i, ds, cs, scored', message, speaker, listener)
    {
      ds, cs, scored', message := Advance(s, colorMap, sides, o, scored, i, ds, cs, scored', message, speaker, listener);
      speaker, listener := listener, speaker;
      i := i + 1;
    }
    LoopDone(s, o, scored, i, ds, cs, scored', message, speaker, listener);
  }

  /** When the loop stops, it has made all `max(0, turns - 1)` iterations. */
  lemma LoopDone(s: Setup, o: Oracle, base: set<string>, i: nat, ds: seq<Delivery>, cs: seq<Call>,
                 scored: set<string>, message: string, speaker: Persona, listener: Persona)
    requires LoopAt(s, o, base, i, ds, cs, scored, message, speaker, listener) && !(i < s.turns - 1)
    ensures ds == Broadcast(LoopEvents(s, o, base, Remaining(s)), s.outputs)
    ensures cs == LoopCalls(s, o, base, Remaining(s))
    ensures scored == if s.judge.Some? then ScoredBefore(s, base, Remaining(s)) else base
  {
    assert i == Remaining(s);
  }

  /**
   * The audience's verdict: the VERDICT with the winner, the scores, the premise and
   * whether the winner's side upheld it. There is no deliberation THINK.
   */
  method VerdictPhase(s: Setup, colorMap: map<string, string>, sides: map<string, string>, o: Oracle)
    returns (ds: seq<Delivery>, ghost cs: seq<Call>)
    requires Ready(s, colorMap, sides) && s.judge.Some?
    ensures ds == Broadcast(VerdictEvents(s, o), s.outputs)
    ensures cs == [VerdictCallOf(s)]
  {
    var j := s.judge.value;
    var request := VerdictCall(j.name, [s.a.name, s.b.name], s.premise, sides);
    var result := o.VerdictOf(request);
    cs := [request];
    var winner := result.winner;
    var premiseUpheld := None;
    if s.premise.Some? && s.premise.value != "" && winner.Some? && winner.value != "" && |sides| > 0 {
      var winnerSide := if winner.value in sides then sides[winner.value] else "";
      if winnerSide != "" {
        premiseUpheld := Some(winnerSide == "for");
      }
    }
    var reasoning := if result.reasoning.Some? then result.reasoning.value else "";
    var scores := if result.scores.Some? then result.scores.value else map[];
    ds := Emit(s, colorMap, Verdict, j.name, reasoning, VerdictMeta(winner, scores, s.premise, premiseUpheld));
  }

  /** Header, planning, the opening and, with an audience, its judging. */
  method Prelude(s: Setup, colorMap: map<string, string>, sides: map<string, string>, o: Oracle)
    returns (message: string, ds: seq<Delivery>, ghost cs: seq<Call>, scored: set<string>)
    requires Ready(s, colorMap, sides)
    ensures message == OpeningMessage(s, o)
    ensures ds == Broadcast(PreludeEvents(s, o, {}), s.outputs)
    ensures cs == PreludeCalls(s, o, {})
    ensures scored == LoopBase(s, {})
  {
    ds := EmitHeader(s, colorMap, sides);
    ghost var es := [HeaderEvent(s)];
    var planned, planCalls := Planning(s, colorMap, sides, o);
    BroadcastConcat(es, PlanEvents(s, o), s.outputs);
    ds, cs, es := ds + planned, planCalls, es + PlanEvents(s, o);
    var openingDeliveries; ghost var openCalls;
    message, openingDeliveries, openCalls := Opening(s, colorMap, sides, o);
    BroadcastConcat(es, OpeningEvents(s, o), s.outputs);
    ds, cs, es := ds + openingDeliveries, cs + openCalls, es + OpeningEvents(s, o);
    scored := {};
    var judged: seq<Delivery> := [];
    ghost var judgeCalls: seq<Call> := [];
    if s.judge.Some? {
      judged, judgeCalls, scored := JudgeTurn(s, colorMap, sides, o, 0, s.a.name, message, scored);
    }
    BroadcastConcat(es, OpeningJudgeEvents(s, o, {}), s.outputs);
    ds, cs := ds + judged, cs + judgeCalls;
  }

  /** The colour map (the audience's colour on top) and the map of non-empty sides. */
  method Maps(a: Persona, b: Persona, audience: Option<Persona>) returns (colorMap: map<string, string>, sides: map<string, string>)
    ensures colorMap == ColorMap(a, b, audience)
    ensures sides == SidesOf(a, b)
  {
    colorMap := map[a.name := a.color][b.name := b.color];
    if audience.Some? {
      colorMap := colorMap[audience.value.name := audience.value.color];
    }
    sides := map[];
    if a.side.Some? && a.side.value != "" {
      sides := sides[a.name := a.side.value];
    }
    if b.side.Some? && b.side.value != "" {
      sides := sides[b.name := b.side.value];
    }
  }

  /** The phases in order: prelude, turn loop and, with an audience, the verdict. */
  method Run(s: Setup, colorMap: map<string, string>, sides: map<string, string>, o: Oracle)
    returns (ds: seq<Delivery>, ghost cs: seq<Call>)
    requires Ready(s, colorMap, sides)
    ensures ds == Broadcast(RunEvents(s, o, {}), s.outputs)
    ensures cs == RunCalls(s, o, {})
  {
    var message, scored;
    message, ds, cs, scored := Prelude(s, colorMap, sides, o);
    var looped, loopCalls, _ := TurnLoop(s, colorMap, sides, o, message, scored);
    ghost var prelude, loop := PreludeEvents(s, o, {}), LoopEvents(s, o, LoopBase(s, {}), Remaining(s));
    BroadcastConcat(prelude, loop, s.outputs);
    ds, cs := ds + looped, cs + loopCalls;
    var closing: seq<Delivery> := [];
    ghost var closingCalls: seq<Call> := [];
    if s.judge.Some? {
      closing, closingCalls := VerdictPhase(s, colorMap, sides, o);
    }
    BroadcastConcat(prelude + loop, ClosingEvents(s, o), s.outputs);
    ds, cs := ds + closing, cs + closingCalls;
    RunSplit(s, o, {});
  }

  /**
   * `run_conversation`: every listener call of the conversation's reference run, in
   * order. Each event reaches every listener, in list order, before the next event
   * reaches any.
   */
  method RunConversation(a: Persona, b: Persona, topic: string, premise: Option<string>, turns: int,
                         audience: Option<Persona>, outputs: nat, o: Oracle)
    returns (deliveries: seq<Delivery>, ghost calls: seq<Call>)
    ensures deliveries == Broadcast(RunEvents(Setup(Conversation, a, b, topic, premise, turns, audience, outputs), o, {}), outputs)
    ensures calls == RunCalls(Setup(Conversation, a, b, topic, premise, turns, audience, outputs), o, {})
  {
    var colorMap, sides := Maps(a, b, audience);
    deliveries, calls := Run(Setup(Conversation, a, b, topic, premise, turns, audience, outputs), colorMap, sides, o);
  }
}
