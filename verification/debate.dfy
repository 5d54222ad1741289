/**
 * The engine's phase machine as the object it is: a `Debate` holds its
 * participants, its listeners and the set of speakers the judge has already scored
 * (its only mutable state), and `Run` drives SETUP, PLANNING, OPENING, TURNS and
 * VERDICT in that order.
 *
 * A listener call is a `Delivery`; each phase returns the listener calls it makes,
 * in order, and (as a ghost result) the requests it makes to the participants, whose
 * answers come from the oracle. Each phase is proved to do exactly what the
 * reference definition of `Phases` says for the engine variant.
 */
module DebateEngine {
  import opened Wrappers
  import opened Events
  import opened Roles
  import opened Phases

  class Debate {
    const agentA: Persona
    const agentB: Persona
    const topic: string
    const premise: Option<string>
    const turns: int
    const judge: Option<Persona>
    /** The number of registered listeners. */
    const outputs: nat
    const oracle: Oracle
    const colorMap: map<string, string>
    const sides: map<string, string>

    /** The speakers the judge has already scored. */
    var scored: set<string>

    function Config(): Setup {
      Setup(Engine, agentA, agentB, topic, premise, turns, judge, outputs)
    }

    /** The colour map and the side map are those of the participants. */
    ghost predicate Derived() {
      colorMap == ColorMapOf(Config()) && sides == SidesOfSetup(Config())
    }

    constructor (a: Persona, b: Persona, topic: string, premise: Option<string>, turns: int,
                 judge: Option<Persona>, outputs: nat, oracle: Oracle)
      ensures Derived()
      ensures agentA == a && agentB == b && this.topic == topic && this.premise == premise
      ensures this.turns == turns && this.judge == judge && this.outputs == outputs && this.oracle == oracle
      ensures scored == {}
    {
      agentA, agentB := a, b;
      this.topic, this.premise, this.turns := topic, premise, turns;
      this.judge, this.outputs, this.oracle := judge, outputs, oracle;
      var cm := map[a.name := a.color][b.name := b.color];
      if judge.Some? {
        cm := cm[judge.value.name := judge.value.color];
      }
      colorMap := cm;
      var sd: map<string, string> := map[];
      if a.side.Some? && a.side.value != "" {
        sd := sd[a.name := a.side.value];
      }
      if b.side.Some? && b.side.value != "" {
        sd := sd[b.name := b.side.value];
      }
      sides := sd;
      scored := {};
    }

    /**
     * Builds the event, coloured by its speaker ("white" for a speaker nobody is),
     * and hands it to every listener in list order.
     */
    method Emit(kind: EventType, speaker: string, content: string, meta: Metadata) returns (ds: seq<Delivery>)
      requires Derived()
      ensures ds == Broadcast([Emitted(Config(), kind, speaker, content, meta)], outputs)
    {
      var color := if speaker in colorMap then colorMap[speaker] else "white";
      var event := DebateEvent(kind, speaker, content, color, meta);
      ds := [];
      for k := 0 to outputs
        invariant ds == FanOut(event, k)
      {
        ds := ds + [Delivery(k, event)];
      }
      assert [event][..0] == [];
    }

    method EmitHeader() returns (ds: seq<Delivery>)
      requires Derived()
      ensures ds == Broadcast([HeaderEvent(Config())], outputs)
    {
      var judgeProfile := None;
      if judge.Some? {
        var j := judge.value;
        judgeProfile := Some(JudgeProfile(j.name, j.color, j.personality, j.judgingCriteria, Some(j.model)));
      }
      ds := Emit(Header, "", "", HeaderMeta(
        topic,
        premise,
        sides,
        [agentA.name, agentB.name],
        colorMap,
        map[agentA.name := agentA.personality][agentB.name := agentB.personality],
        Some(map[agentA.name := agentA.model][agentB.name := agentB.model]),
        judgeProfile));
    }

    /** Each debater plans, first debater first. */
    method PlanningPhase() returns (ds: seq<Delivery>, ghost cs: seq<Call>)
      requires Derived()
      ensures ds == Broadcast(PlanEvents(Config(), oracle), outputs)
      ensures cs == PlanCalls(Config())
    {
      var request := PlanCall(agentA.name, topic);
      var plan := oracle.Answer(request);
      cs := [request];
      var first := Emit(Plan, agentA.name, plan, NoMeta);
      request := PlanCall(agentB.name, topic);
      plan := oracle.Answer(request);
      cs := cs + [request];
      var second := Emit(Plan, agentB.name, plan, NoMeta);
      ds := first + second;
      ghost var es := PlanEvents(Config(), oracle);
      BroadcastConcat([es[0]], [es[1]], outputs);
      assert es == [es[0]] + [es[1]];
    }

    /**
     * The first debater reasons privately, then delivers the opening, framed FOR or
     * AGAINST the premise when it has a side and there is a premise.
     */
    method OpeningStatement() returns (message: string, ds: seq<Delivery>, ghost cs: seq<Call>)
      requires Derived()
      ensures message == OpeningMessage(Config(), oracle)
      ensures ds == Broadcast(OpeningEvents(Config(), oracle), outputs)
      ensures cs == OpeningCalls(Config())
    {
      var request := ThinkOpeningCall(agentA.name, topic, premise, agentA.side, agentB.name);
      var thought := oracle.Answer(request);
      cs := [request];
      var first := Emit(Think, agentA.name, thought, NoMeta);
      var framing := None;
      if agentA.side.Some? && agentA.side.value != "" && premise.Some? && premise.value != "" {
        var stance := if agentA.side.value == "for" then "FOR" else "AGAINST";
        framing := Some(Framing(stance, premise.value));
      }
      request := OpeningCall(agentA.name, topic, agentB.name, framing);
      message := oracle.Answer(request);
      cs := cs + [request];
      var second := Emit(Turn, agentA.name, message, NoMeta);
      ds := first + second;
      ghost var es := OpeningEvents(Config(), oracle);
      BroadcastConcat([es[0]], [es[1]], outputs);
      assert es == [es[0]] + [es[1]];
    }

    /**
     * The judge evaluates the statement, then scores its speaker, asking for a
     * first score exactly when that speaker has not been scored before.
     */
    method JudgeTurn(turn: nat, speakerName: string, statement: string) returns (ds: seq<Delivery>, ghost cs: seq<Call>)
      requires Derived() && judge.Some?
      modifies this
      ensures ds == Broadcast(JudgeEvents(Config(), oracle, judge.value, turn, speakerName, statement, speakerName !in old(scored)), outputs)
      ensures cs == JudgeCalls(judge.value, turn, speakerName, statement, speakerName !in old(scored))
      ensures scored == old(scored) + {speakerName}
    {
      var j := judge.value;
      var request := EvaluateCall(j.name, turn, speakerName, statement);
      var evaluation := oracle.Answer(request);
      cs := [request];
      var first := Emit(Think, j.name, evaluation, NoMeta);
      var scoreRequest := ScoreCall(j.name, turn, speakerName, speakerName !in scored);
      var result := oracle.ScoreOf(scoreRequest);
      cs := cs + [scoreRequest];
      scored := scored + {speakerName};
      var reasoning := if result.reasoning.Some? then result.reasoning.value else "";
      var second := Emit(Score, j.name, reasoning, ScoreMeta(speakerName, result.score));
      ds := first + second;
      ghost var es := JudgeEvents(Config(), oracle, j, turn, speakerName, statement, speakerName !in old(scored));
      BroadcastConcat([es[0]], [es[1]], outputs);
      assert es == [es[0]] + [es[1]];
    }

    /** The speaker reflects on the statement before it, then responds. */
    method Speak(i: nat, final: bool, message: string, speaker: Persona)
      returns (reply: string, ds: seq<Delivery>, ghost cs: seq<Call>)
      requires Derived()
      requires final == (i >= turns - 3)
      requires message == MessageBefore(Config(), oracle, i) && speaker == Speaker(Config(), i)
      ensures reply == TurnMessage(Config(), oracle, i)
      ensures ds == Broadcast(SpeechEvents(Config(), oracle, i), outputs)
      ensures cs == SpeechCalls(Config(), oracle, i)
    {
      var request := ThinkCall(speaker.name, i + 1, message, Some(final));
      var thought := oracle.Answer(request);
      cs := [request];
      var first := Emit(Think, speaker.name, thought, NoMeta);
      request := RespondCall(speaker.name, i + 1, Some(final));
      reply := oracle.Answer(request);
      cs := cs + [request];
      var second := Emit(Turn, speaker.name, reply, NoMeta);
      ds := first + second;
      ghost var es := SpeechEvents(Config(), oracle, i);
      BroadcastConcat([es[0]], [es[1]], outputs);
      assert es == [es[0]] + [es[1]];
    }

    /**
     * One iteration of the turn loop: the speaker reflects on the statement before
     * it, responds and, with a judge, is judged.
     */
    method TurnIteration(ghost base: set<string>, i: nat, final: bool, message: string, speaker: Persona)
      returns (reply: string, ds: seq<Delivery>, ghost cs: seq<Call>)
      requires Derived()
      requires final == (i >= turns - 3)
      requires message == MessageBefore(Config(), oracle, i) && speaker == Speaker(Config(), i)
      requires judge.Some? ==> scored == ScoredBefore(Config(), base, i)
      modifies this
      ensures reply == TurnMessage(Config(), oracle, i)
      ensures ds == Broadcast(IterationEvents(Config(), oracle, base, i), outputs)
      ensures cs == IterationCalls(Config(), oracle, base, i)
      ensures scored == if judge.Some? then old(scored) + {speaker.name} else old(scored)
    {
      ghost var s := Config();
      reply, ds, cs := Speak(i, final, message, speaker);
      var judged: seq<Delivery> := [];
      ghost var judgeCalls: seq<Call> := [];
      if judge.Some? {
        judged, judgeCalls := JudgeTurn(i + 1, speaker.name, reply);
      }
      BroadcastConcat(SpeechEvents(s, oracle, i), TurnJudgeEvents(s, oracle, base, i), outputs);
      ds, cs := ds + judged, cs + judgeCalls;
    }

    /** The turn loop after `i` iterations from the scored set `base`. */
    ghost predicate LoopAt(base: set<string>, i: nat, ds: seq<Delivery>, cs: seq<Call>, message: string, speaker: Persona, listener: Persona)
      reads this
    {
      && i <= Remaining(Config())
      && ds == Broadcast(LoopEvents(Config(), oracle, base, i), outputs)
      && cs == LoopCalls(Config(), oracle, base, i)
      && scored == (if judge.Some? then ScoredBefore(Config(), base, i) else base)
      && message == MessageBefore(Config(), oracle, i)
      && speaker == Speaker(Config(), i) && listener == Speaker(Config(), i + 1)
    }

    /** Before the first iteration: nothing delivered, the opening to answer. */
    lemma LoopStart()
      ensures LoopAt(scored, 0, [], [], OpeningMessage(Config(), oracle), agentB, agentA)
    {
      assert LoopEvents(Config(), oracle, scored, 0) == [];
    }

    /** One iteration of the loop, with its deliveries and requests appended. */
    method Advance(ghost base: set<string>, i: nat, ds: seq<Delivery>, ghost cs: seq<Call>, message: string, speaker: Persona, listener: Persona)
      returns (ds': seq<Delivery>, ghost cs': seq<Call>, reply: string)
      requires Derived() && i < Remaining(Config())
      requires LoopAt(base, i, ds, cs, message, speaker, listener)
      modifies this
      ensures LoopAt(base, i + 1, ds', cs', reply, listener, speaker)
    {
      ghost var s := Config();
      var final := i >= turns - 1 - 2;
      var turnDeliveries; ghost var turnCalls;
      reply, turnDeliveries, turnCalls := TurnIteration(base, i, final, message, speaker);
      LoopStep(s, oracle, base, i);
      BroadcastConcat(LoopEvents(s, oracle, base, i), IterationEvents(s, oracle, base, i), outputs);
      ds', cs' := ds + turnDeliveries, cs + turnCalls;
    }

    /**
     * `turns - 1` iterations alternate the speakers, starting with the second
     * debater; the last two iterations carry `final = true`.
     */
    method TurnLoop(openingMessage: string) returns (ds: seq<Delivery>, ghost cs: seq<Call>)
      requires Derived()
      requires openingMessage == OpeningMessage(Config(), oracle)
      modifies this
      ensures ds == Broadcast(LoopEvents(Config(), oracle, old(scored), Remaining(Config())), outputs)
      ensures cs == LoopCalls(Config(), oracle, old(scored), Remaining(Config()))
      ensures scored == if judge.Some? then ScoredBefore(Config(), old(scored), Remaining(Config())) else old(scored)
    {
      ghost var base := scored;
      ds, cs := [], [];
      var message := openingMessage;
      var speaker, listener := agentB, agentA;
      var remaining := turns - 1;
      var i := 0;
      LoopStart();
      while i < remaining
        invariant 0 <= i
        invariant LoopAt(base, i, ds, cs, message, speaker, listener)
      {
        ds, cs, message := Advance(base, i, ds, cs, message, speaker, listener);
        speaker, listener := listener, speaker;
        i := i + 1;
      }
      assert i == Remaining(Config());
    }

    /**
     * `premise_upheld`: decided only when there is a premise, a winner and a side
     * map, and the winner has a non-empty side; upheld exactly when that side is
     * "for".
     */
    method DecidePremise(winner: Option<string>) returns (upheld: Option<bool>)
      requires Derived()
      ensures upheld == PremiseUpheld(premise, winner, SidesOf(agentA, agentB))
    {
      upheld := None;
      if premise.Some? && premise.value != "" && winner.Some? && winner.value != "" && |sides| > 0 {
        var winnerSide := if winner.value in sides then sides[winner.value] else "";
        if winnerSide != "" {
          upheld := Some(winnerSide == "for");
        }
      }
    }

    /**
     * The judge's verdict: its deliberation, when non-empty, as a THINK, then the
     * VERDICT with the winner, the scores, the premise and whether the winner's side
     * upheld it.
     */
    method VerdictPhase() returns (ds: seq<Delivery>, ghost cs: seq<Call>)
      requires Derived() && judge.Some?
      ensures ds == Broadcast(VerdictEvents(Config(), oracle), outputs)
      ensures cs == [VerdictCallOf(Config())]
    {
      var j := judge.value;
      var request := VerdictCall(j.name, [agentA.name, agentB.name], premise, sides);
      assert request == VerdictCallOf(Config());
      var result := oracle.VerdictOf(request);
      assert result == VerdictReplyOf(Config(), oracle);
      cs := [request];
      var winner := result.winner;
      var premiseUpheld := DecidePremise(winner);
      ds := [];
      ghost var deliberation: seq<DebateEvent> := [];
      if result.deliberation.Some? && result.deliberation.value != "" {
        ds := Emit(Think, j.name, result.deliberation.value, NoMeta);
        deliberation := [Emitted(Config(), Think, j.name, result.deliberation.value, NoMeta)];
      }
      var reasoning := if result.reasoning.Some? then result.reasoning.value else "";
      var scores := if result.scores.Some? then result.scores.value else map[];
      ghost var verdict := Emitted(Config(), Verdict, j.name, reasoning, VerdictMeta(winner, scores, premise, premiseUpheld));
      assert VerdictEvents(Config(), oracle) == deliberation + [verdict];
      var last := Emit(Verdict, j.name, reasoning, VerdictMeta(winner, scores, premise, premiseUpheld));
      BroadcastConcat(deliberation, [verdict], outputs);
      ds := ds + last;
    }

    /** Header, planning, the opening statement and, with a judge, its judging. */
    method Prelude() returns (message: string, ds: seq<Delivery>, ghost cs: seq<Call>)
      requires Derived()
      modifies this
      ensures message == OpeningMessage(Config(), oracle)
      ensures ds == Broadcast(PreludeEvents(Config(), oracle, old(scored)), outputs)
      ensures cs == PreludeCalls(Config(), oracle, old(scored))
      ensures scored == LoopBase(Config(), old(scored))
    {
      ghost var s, sc0 := Config(), scored;
      ds := EmitHeader();
      ghost var es := [HeaderEvent(s)];
      var planned, planCalls := PlanningPhase();
      BroadcastConcat(es, PlanEvents(s, oracle), outputs);
      ds, cs, es := ds + planned, planCalls, es + PlanEvents(s, oracle);
      var openingDeliveries; ghost var openCalls;
      message, openingDeliveries, openCalls := OpeningStatement();
      BroadcastConcat(es, OpeningEvents(s, oracle), outputs);
      ds, cs, es := ds + openingDeliveries, cs + openCalls, es + OpeningEvents(s, oracle);
      var judged: seq<Delivery> := [];
      ghost var judgeCalls: seq<Call> := [];
      if judge.Some? {
        judged, judgeCalls := JudgeTurn(0, agentA.name, message);
      }
      BroadcastConcat(es, OpeningJudgeEvents(s, oracle, sc0), outputs);
      ds, cs := ds + judged, cs + judgeCalls;
    }

    /**
     * `run`: every listener call of the engine's reference run, in order, from the
     * current scored set.
     */
    method Run() returns (ds: seq<Delivery>, ghost cs: seq<Call>)
      requires Derived()
      modifies this
      ensures ds == Broadcast(RunEvents(Config(), oracle, old(scored)), outputs)
      ensures cs == RunCalls(Config(), oracle, old(scored))
      ensures scored == RunScored(Config(), old(scored))
    {
      ghost var s, sc0 := Config(), scored;
      var openingMessage;
      openingMessage, ds, cs := Prelude();
      var looped, loopCalls := TurnLoop(openingMessage);
      ghost var prelude, loop := PreludeEvents(s, oracle, sc0), LoopEvents(s, oracle, LoopBase(s, sc0), Remaining(s));
      BroadcastConcat(prelude, loop, outputs);
      ds, cs := ds + looped, cs + loopCalls;
      var closing: seq<Delivery> := [];
      ghost var closingCalls: seq<Call> := [];
      if judge.Some? {
        closing, closingCalls := VerdictPhase();
      }
      BroadcastConcat(prelude + loop, ClosingEvents(s, oracle), outputs);
      ds, cs := ds + closing, cs + closingCalls;
      RunSplit(s, oracle, sc0);
    }
  }

  /**
   * `run_debate`: a fresh debate run to its end. The listeners receive the events
   * of the engine's reference run, each event reaching every listener, in list
   * order, before the next event reaches any.
   */
  method RunDebate(a: Persona, b: Persona, topic: string, premise: Option<string>, turns: int,
                   judge: Option<Persona>, outputs: nat, oracle: Oracle)
    returns (deliveries: seq<Delivery>, ghost calls: seq<Call>)
    ensures deliveries == Broadcast(RunEvents(Setup(Engine, a, b, topic, premise, turns, judge, outputs), oracle, {}), outputs)
    ensures calls == RunCalls(Setup(Engine, a, b, topic, premise, turns, judge, outputs), oracle, {})
  {
    var debate := new Debate(a, b, topic, premise, turns, judge, outputs, oracle);
    deliveries, calls := debate.Run();
  }
}
