/**
 * What the phase machine promises about every run, stated over the reference
 * definition `Phases.RunEvents` / `Phases.RunCalls` and so shared by both runners:
 * the order of event kinds per phase, the alternation and number of public turns,
 * the `final` flag on each debater's last turn, the one-time `first` score request
 * per speaker, the colour rule, the shape of the HEADER and of the closing VERDICT,
 * and that a run without a judge makes no judging call and emits no judging event.
 */
module PhaseProps {
  import opened Wrappers
  import opened Events
  import opened Roles
  import opened Phases

  // ---- event kinds, phase by phase ----

  /** The kinds one turn-loop iteration emits. */
  function IterationKinds(judged: bool): seq<EventType> {
    [Think, Turn] + (if judged then [Think, Score] else [])
  }

  function Repeat(ks: seq<EventType>, n: nat): (r: seq<EventType>)
    ensures |r| == n * |ks|
  {
    if n == 0 then [] else Repeat(ks, n - 1) + ks
  }

  /** `f(0) + f(1) + ... + f(n - 1)`. */
  function Concat<T>(n: nat, f: nat -> seq<T>): seq<T> {
    if n == 0 then [] else Concat(n - 1, f) + f(n - 1)
  }

  function Iterations(s: Setup, o: Oracle, base: set<string>): nat -> seq<DebateEvent> {
    (i: nat) => IterationEvents(s, o, base, i)
  }

  function IterationCallsOf(s: Setup, o: Oracle, base: set<string>): nat -> seq<Call> {
    (i: nat) => IterationCalls(s, o, base, i)
  }

  /** The loop logs are the iterations' logs one after the other. */
  lemma {:induction false} LoopCallsConcat(s: Setup, o: Oracle, base: set<string>, n: nat)
    ensures LoopCalls(s, o, base, n) == Concat(n, IterationCallsOf(s, o, base))
  {
    if n > 0 {
      LoopCallsConcat(s, o, base, n - 1);
      assert IterationCallsOf(s, o, base)(n - 1) == IterationCalls(s, o, base, n - 1);
    }
  }

  lemma {:induction false} LoopEventsConcat(s: Setup, o: Oracle, base: set<string>, n: nat)
    ensures LoopEvents(s, o, base, n) == Concat(n, Iterations(s, o, base))
  {
    if n > 0 {
      LoopEventsConcat(s, o, base, n - 1);
      assert Iterations(s, o, base)(n - 1) == IterationEvents(s, o, base, n - 1);
    }
  }

  /** Whether the verdict carries a non-empty deliberation. */
  predicate Deliberates(s: Setup, o: Oracle) {
    s.judge.Some? && Truthy(VerdictReplyOf(s, o).deliberation)
  }

  /**
   * SETUP, PLANNING, OPENING, the judged opening, the turns and the verdict, as the
   * kinds they emit.
   */
  function ExpectedKinds(s: Setup, deliberates: bool): seq<EventType> {
    var judged := s.judge.Some?;
    [Header, Plan, Plan]
    + (if s.variant == Engine then [Think] else []) + [Turn]
    + (if judged then [Think, Score] else [])
    + Repeat(IterationKinds(judged), Remaining(s))
    + (if judged then (if s.variant == Engine && deliberates then [Think] else []) + [Verdict] else [])
  }

  lemma IterationKindsOf(s: Setup, o: Oracle, base: set<string>, i: nat)
    ensures Kinds(IterationEvents(s, o, base, i)) == IterationKinds(s.judge.Some?)
  {
  }

  lemma {:induction false} ConcatKinds(n: nat, f: nat -> seq<DebateEvent>, ks: seq<EventType>)
    requires forall i :: 0 <= i < n ==> Kinds(f(i)) == ks
    ensures Kinds(Concat(n, f)) == Repeat(ks, n)
  {
    if n > 0 {
      ConcatKinds(n - 1, f, ks);
      KindsAppend(Concat(n - 1, f), f(n - 1));
    }
  }

  lemma LoopKinds(s: Setup, o: Oracle, base: set<string>, n: nat)
    ensures Kinds(LoopEvents(s, o, base, n)) == Repeat(IterationKinds(s.judge.Some?), n)
  {
    forall i | 0 <= i < n
      ensures Kinds(Iterations(s, o, base)(i)) == IterationKinds(s.judge.Some?)
    {
      IterationKindsOf(s, o, base, i);
    }
    ConcatKinds(n, Iterations(s, o, base), IterationKinds(s.judge.Some?));
    LoopEventsConcat(s, o, base, n);
  }

  lemma {:induction false} KindsAppend4(p0: seq<DebateEvent>, p1: seq<DebateEvent>, p2: seq<DebateEvent>, p3: seq<DebateEvent>)
    ensures Kinds(p0 + p1 + p2 + p3) == Kinds(p0) + Kinds(p1) + Kinds(p2) + Kinds(p3)
  {
    KindsAppend(p0, p1);
    KindsAppend(p0 + p1, p2);
    KindsAppend(p0 + p1 + p2, p3);
  }

  function PrefixEvents(s: Setup, o: Oracle): seq<DebateEvent> {
    [HeaderEvent(s)] + PlanEvents(s, o) + OpeningEvents(s, o)
  }

  /** A run's events are its prefix, the opening's judging, the loop and the closing, in order. */
  lemma RunEventsParts(s: Setup, o: Oracle, scored: set<string>)
    ensures RunEvents(s, o, scored) ==
      PrefixEvents(s, o) + OpeningJudgeEvents(s, o, scored)
      + LoopEvents(s, o, LoopBase(s, scored), Remaining(s)) + ClosingEvents(s, o)
  {
  }

  lemma PrefixKinds(s: Setup, o: Oracle)
    ensures Kinds(PrefixEvents(s, o)) == [Header, Plan, Plan] + (if s.variant == Engine then [Think] else []) + [Turn]
  {
  }

  lemma OpeningJudgeKinds(s: Setup, o: Oracle, scored: set<string>)
    ensures Kinds(OpeningJudgeEvents(s, o, scored)) == if s.judge.Some? then [Think, Score] else []
  {
  }

  lemma ClosingKinds(s: Setup, o: Oracle)
    ensures Kinds(ClosingEvents(s, o)) ==
      if s.judge.Some? then (if s.variant == Engine && Deliberates(s, o) then [Think] else []) + [Verdict] else []
  {
  }

  /** The kinds of a run, in order, follow the phase order exactly. */
  lemma RunKinds(s: Setup, o: Oracle, scored: set<string>)
    ensures Kinds(RunEvents(s, o, scored)) == ExpectedKinds(s, Deliberates(s, o))
  {
    var p0 := PrefixEvents(s, o);
    var p1 := OpeningJudgeEvents(s, o, scored);
    var p2 := LoopEvents(s, o, LoopBase(s, scored), Remaining(s));
    var p3 := ClosingEvents(s, o);
    KindsAppend4(p0, p1, p2, p3);
    PrefixKinds(s, o);
    OpeningJudgeKinds(s, o, scored);
    LoopKinds(s, o, LoopBase(s, scored), Remaining(s));
    ClosingKinds(s, o);
  }

  /**
   * A judged engine debate of one opening and one turn, whose judge deliberates,
   * emits exactly these thirteen kinds.
   */
  lemma OneTurnJudgedOrder(s: Setup, o: Oracle)
    requires s.variant == Engine && s.turns == 2 && Deliberates(s, o)
    ensures Kinds(RunEvents(s, o, {})) ==
      [Header, Plan, Plan, Think, Turn, Think, Score, Think, Turn, Think, Score, Think, Verdict]
  {
    RunKinds(s, o, {});
    OneTurnJudgedExpected(s);
  }

  lemma OneTurnJudgedExpected(s: Setup)
    requires s.variant == Engine && s.turns == 2 && s.judge.Some?
    ensures ExpectedKinds(s, true) ==
      [Header, Plan, Plan, Think, Turn, Think, Score, Think, Turn, Think, Score, Think, Verdict]
  {
    assert Repeat(IterationKinds(true), 1) == [Think, Turn, Think, Score];
  }

  lemma ConversationExpected(s: Setup, deliberates: bool)
    requires s.variant == Conversation
    ensures ExpectedKinds(s, deliberates)[..4] == [Header, Plan, Plan, Turn]
    ensures s.judge.Some? ==>
      var ks := ExpectedKinds(s, deliberates);
      |ks| >= 2 && ks[|ks| - 1] == Verdict && ks[|ks| - 2] == Score
  {
    var front := [Header, Plan, Plan, Turn];
    var judged := s.judge.Some?;
    var loop := Repeat(IterationKinds(judged), Remaining(s));
    var rest := (if judged then [Think, Score] else []) + loop + (if judged then [Verdict] else []);
    assert ExpectedKinds(s, deliberates) == front + rest;
    if judged {
      var body := [Header, Plan, Plan, Turn, Think, Score] + loop;
      assert ExpectedKinds(s, deliberates) == body + [Verdict];
      if Remaining(s) > 0 {
        assert loop == Repeat(IterationKinds(true), Remaining(s) - 1) + [Think, Turn, Think, Score];
        assert body[|body| - 1] == loop[|loop| - 1];
      }
    }
  }

  /** The older runner has no THINK before the opening and no deliberation THINK. */
  lemma ConversationKinds(s: Setup, o: Oracle, scored: set<string>)
    requires s.variant == Conversation
    ensures Kinds(RunEvents(s, o, scored))[..4] == [Header, Plan, Plan, Turn]
    ensures s.judge.Some? ==>
      var ks := Kinds(RunEvents(s, o, scored));
      |ks| >= 2 && ks[|ks| - 1] == Verdict && ks[|ks| - 2] == Score
  {
    RunKinds(s, o, scored);
    ConversationExpected(s, Deliberates(s, o));
  }

  lemma {:induction false} RepeatMembers(ks: seq<EventType>, n: nat, t: EventType)
    requires t in Repeat(ks, n)
    ensures t in ks
  {
    if n > 0 && t !in ks {
      RepeatMembers(ks, n - 1, t);
    }
  }

  // ---- public turns ----

  /** The speakers of the TURN events, in order. */
  function TurnSpeakers(es: seq<DebateEvent>): seq<string> {
    if es == [] then []
    else TurnSpeakers(es[..|es| - 1]) + (if es[|es| - 1].kind == Turn then [es[|es| - 1].speaker] else [])
  }

  lemma {:induction false} TurnSpeakersAppend(xs: seq<DebateEvent>, ys: seq<DebateEvent>)
    ensures TurnSpeakers(xs + ys) == TurnSpeakers(xs) + TurnSpeakers(ys)
    decreases |ys|
  {
    if ys == [] {
      assert xs + ys == xs;
    } else {
      assert (xs + ys)[..|xs + ys| - 1] == xs + ys[..|ys| - 1];
      TurnSpeakersAppend(xs, ys[..|ys| - 1]);
    }
  }

  lemma {:induction false} TurnSpeakersOne(e: DebateEvent)
    ensures TurnSpeakers([e]) == if e.kind == Turn then [e.speaker] else []
  {
    assert [e][..0] == [];
  }

  lemma {:induction false} TurnSpeakers4(p0: seq<DebateEvent>, p1: seq<DebateEvent>, p2: seq<DebateEvent>, p3: seq<DebateEvent>)
    ensures TurnSpeakers(p0 + p1 + p2 + p3) == TurnSpeakers(p0) + TurnSpeakers(p1) + TurnSpeakers(p2) + TurnSpeakers(p3)
  {
    TurnSpeakersAppend(p0, p1);
    TurnSpeakersAppend(p0 + p1, p2);
    TurnSpeakersAppend(p0 + p1 + p2, p3);
  }

  /** Events none of which is a TURN contribute no speaker. */
  lemma {:induction false} NoTurnSpeakers(es: seq<DebateEvent>)
    requires forall k :: 0 <= k < |es| ==> es[k].kind != Turn
    ensures TurnSpeakers(es) == []
  {
    if es != [] {
      NoTurnSpeakers(es[..|es| - 1]);
    }
  }

  lemma PrefixTurns(s: Setup, o: Oracle)
    ensures TurnSpeakers(PrefixEvents(s, o)) == [s.a.name]
  {
    var es := PrefixEvents(s, o);
    var front := es[..|es| - 1];
    assert es == front + [es[|es| - 1]];
    assert es[|es| - 1].kind == Turn && es[|es| - 1].speaker == s.a.name;
    NoTurnSpeakers(front);
    TurnSpeakersAppend(front, [es[|es| - 1]]);
    TurnSpeakersOne(es[|es| - 1]);
  }

  lemma OpeningJudgeTurns(s: Setup, o: Oracle, scored: set<string>)
    ensures TurnSpeakers(OpeningJudgeEvents(s, o, scored)) == []
  {
    NoTurnSpeakers(OpeningJudgeEvents(s, o, scored));
  }

  lemma ClosingTurns(s: Setup, o: Oracle)
    ensures TurnSpeakers(ClosingEvents(s, o)) == []
  {
    NoTurnSpeakers(ClosingEvents(s, o));
  }

  lemma IterationTurns(s: Setup, o: Oracle, base: set<string>, i: nat)
    ensures TurnSpeakers(IterationEvents(s, o, base, i)) == [Speaker(s, i).name]
  {
    var it := IterationEvents(s, o, base, i);
    var think, turn, rest := it[..1], it[1], it[2..];
    assert it == think + [turn] + rest;
    NoTurnSpeakers(think);
    NoTurnSpeakers(rest);
    TurnSpeakersOne(turn);
    TurnSpeakersAppend(think, [turn]);
    TurnSpeakersAppend(think + [turn], rest);
  }

  lemma {:induction false} ConcatTurnSpeakers(n: nat, f: nat -> seq<DebateEvent>)
    requires forall i :: 0 <= i < n ==> |TurnSpeakers(f(i))| == 1
    ensures |TurnSpeakers(Concat(n, f))| == n
    ensures forall i :: 0 <= i < n ==> TurnSpeakers(Concat(n, f))[i] == TurnSpeakers(f(i))[0]
  {
    if n > 0 {
      ConcatTurnSpeakers(n - 1, f);
      TurnSpeakersAppend(Concat(n - 1, f), f(n - 1));
    }
  }

  /** Iteration `i` of the loop makes exactly one public turn, by `Speaker(s, i)`. */
  lemma LoopTurnSpeakers(s: Setup, o: Oracle, base: set<string>, n: nat)
    ensures |TurnSpeakers(LoopEvents(s, o, base, n))| == n
    ensures forall i :: 0 <= i < n ==> TurnSpeakers(LoopEvents(s, o, base, n))[i] == Speaker(s, i).name
  {
    forall i | 0 <= i < n
      ensures TurnSpeakers(Iterations(s, o, base)(i)) == [Speaker(s, i).name]
    {
      IterationTurns(s, o, base, i);
    }
    ConcatTurnSpeakers(n, Iterations(s, o, base));
    LoopEventsConcat(s, o, base, n);
  }

  /**
   * The public turns alternate, starting with the first debater, and there are
   * `1 + max(0, turns - 1)` of them: the opening and one per loop iteration.
   */
  lemma TurnAlternation(s: Setup, o: Oracle, scored: set<string>)
    ensures |TurnSpeakers(RunEvents(s, o, scored))| == 1 + Remaining(s)
    ensures forall k :: 0 <= k < |TurnSpeakers(RunEvents(s, o, scored))| ==>
      TurnSpeakers(RunEvents(s, o, scored))[k] == (if k % 2 == 0 then s.a.name else s.b.name)
  {
    var loop := LoopEvents(s, o, LoopBase(s, scored), Remaining(s));
    RunTurnSpeakers(s, o, scored);
    LoopTurnSpeakers(s, o, LoopBase(s, scored), Remaining(s));
    Alternates(s, TurnSpeakers(RunEvents(s, o, scored)), TurnSpeakers(loop));
  }

  /** Besides the loop's turns, a run has one: the opening. */
  lemma RunTurnSpeakers(s: Setup, o: Oracle, scored: set<string>)
    ensures TurnSpeakers(RunEvents(s, o, scored)) == [s.a.name] + TurnSpeakers(LoopEvents(s, o, LoopBase(s, scored), Remaining(s)))
  {
    RunEventsParts(s, o, scored);
    PrefixTurns(s, o);
    OpeningJudgeTurns(s, o, scored);
    ClosingTurns(s, o);
    OneTurnThenLoop(PrefixEvents(s, o), OpeningJudgeEvents(s, o, scored), LoopEvents(s, o, LoopBase(s, scored), Remaining(s)), ClosingEvents(s, o), s.a.name);
  }

  lemma OneTurnThenLoop(p0: seq<DebateEvent>, p1: seq<DebateEvent>, p2: seq<DebateEvent>, p3: seq<DebateEvent>, x: string)
    requires TurnSpeakers(p0) == [x] && TurnSpeakers(p1) == [] && TurnSpeakers(p3) == []
    ensures TurnSpeakers(p0 + p1 + p2 + p3) == [x] + TurnSpeakers(p2)
  {
    TurnSpeakers4(p0, p1, p2, p3);
  }

  lemma Alternates(s: Setup, ts: seq<string>, loop: seq<string>)
    requires ts == [s.a.name] + loop
    requires |loop| == Remaining(s)
    requires forall i :: 0 <= i < |loop| ==> loop[i] == Speaker(s, i).name
    ensures |ts| == 1 + Remaining(s)
    ensures forall k :: 0 <= k < |ts| ==> ts[k] == (if k % 2 == 0 then s.a.name else s.b.name)
  {
    forall k | 0 < k < |ts|
      ensures ts[k] == (if k % 2 == 0 then s.a.name else s.b.name)
    {
      assert ts[k] == Speaker(s, k - 1).name;
    }
  }

  /** Six turns: the first debater X and the second Y speak X, Y, X, Y, X, Y. */
  lemma SixTurnsExample(s: Setup, o: Oracle)
    requires s.turns == 6
    ensures TurnSpeakers(RunEvents(s, o, {})) == [s.a.name, s.b.name, s.a.name, s.b.name, s.a.name, s.b.name]
  {
    TurnAlternation(s, o, {});
    SixAlternating(TurnSpeakers(RunEvents(s, o, {})), s.a.name, s.b.name);
  }

  lemma SixAlternating(ts: seq<string>, x: string, y: string)
    requires |ts| == 6
    requires forall k :: 0 <= k < |ts| ==> ts[k] == (if k % 2 == 0 then x else y)
    ensures ts == [x, y, x, y, x, y]
  {
    assert ts[0] == x && ts[2] == x && ts[4] == x;
    assert ts[1] == y && ts[3] == y && ts[5] == y;
  }

  // ---- the final flag ----

  /**
   * The engine passes `final = true` to exactly the last loop iteration of each
   * debater: iteration `i` is final exactly when no later iteration has the same
   * speaker position. The older runner passes no flag at all.
   */
  lemma FinalOnLastTurns(s: Setup, i: nat)
    requires i < Remaining(s)
    ensures s.variant == Conversation ==> FinalArg(s, i) == None
    ensures s.variant == Engine ==> FinalArg(s, i).Some?
    ensures s.variant == Engine ==>
      (FinalArg(s, i) == Some(true) <==> !exists j :: i < j < Remaining(s) && j % 2 == i % 2)
    ensures s.variant == Engine ==> (FinalArg(s, i) == Some(true) <==> i + 2 >= Remaining(s))
  {
    if s.variant == Engine && i + 2 < Remaining(s) {
      assert (i + 2) % 2 == i % 2;
    }
  }

  /** Six engine turns: of the five loop iterations exactly the fourth and fifth are final. */
  lemma SixTurnsFinal(s: Setup, i: nat)
    requires s.variant == Engine && s.turns == 6 && i < Remaining(s)
    ensures FinalArg(s, i) == Some(i == 3 || i == 4)
  {
  }

  // ---- first-score requests ----

  datatype ScoreRequest = ScoreRequest(target: string, first: bool)

  /** The score requests among the calls, in order. */
  function ScoreRequests(cs: seq<Call>): seq<ScoreRequest> {
    if cs == [] then []
    else
      var c := cs[|cs| - 1];
      ScoreRequests(cs[..|cs| - 1]) + (if c.ScoreCall? then [ScoreRequest(c.speaker, c.first)] else [])
  }

  lemma {:induction false} ScoreRequestsAppend(xs: seq<Call>, ys: seq<Call>)
    ensures ScoreRequests(xs + ys) == ScoreRequests(xs) + ScoreRequests(ys)
    decreases |ys|
  {
    if ys == [] {
      assert xs + ys == xs;
    } else {
      assert (xs + ys)[..|xs + ys| - 1] == xs + ys[..|ys| - 1];
      ScoreRequestsAppend(xs, ys[..|ys| - 1]);
    }
  }

  /** A run of calls without score calls asks for no score. */
  lemma {:induction false} NoScoreRequests(cs: seq<Call>)
    requires forall k :: 0 <= k < |cs| ==> !cs[k].ScoreCall?
    ensures ScoreRequests(cs) == []
  {
    if cs != [] {
      NoScoreRequests(cs[..|cs| - 1]);
    }
  }

  lemma {:induction false} ScoreRequestsOne(c: Call)
    ensures ScoreRequests([c]) == if c.ScoreCall? then [ScoreRequest(c.speaker, c.first)] else []
  {
    assert [c][..0] == [];
  }

  lemma {:induction false} ScoreRequests4(p0: seq<Call>, p1: seq<Call>, p2: seq<Call>, p3: seq<Call>)
    ensures ScoreRequests(p0 + p1 + p2 + p3) == ScoreRequests(p0) + ScoreRequests(p1) + ScoreRequests(p2) + ScoreRequests(p3)
  {
    ScoreRequestsAppend(p0, p1);
    ScoreRequestsAppend(p0 + p1, p2);
    ScoreRequestsAppend(p0 + p1 + p2, p3);
  }

  lemma JudgeCallsRequest(j: Persona, turn: nat, speaker: string, statement: string, first: bool)
    ensures ScoreRequests(JudgeCalls(j, turn, speaker, statement, first)) == [ScoreRequest(speaker, first)]
  {
    var cs := JudgeCalls(j, turn, speaker, statement, first);
    assert cs == [cs[0]] + [cs[1]];
    ScoreRequestsAppend([cs[0]], [cs[1]]);
    ScoreRequestsOne(cs[0]);
    ScoreRequestsOne(cs[1]);
  }

  lemma IterationRequests(s: Setup, o: Oracle, base: set<string>, i: nat)
    requires s.judge.Some?
    ensures ScoreRequests(IterationCalls(s, o, base, i)) == [ScoreRequest(Speaker(s, i).name, FirstAt(s, base, i))]
  {
    var front := [ThinkAt(s, o, i), RespondAt(s, i)];
    var jc := JudgeCalls(s.judge.value, i + 1, Speaker(s, i).name, TurnMessage(s, o, i), FirstAt(s, base, i));
    assert IterationCalls(s, o, base, i) == front + jc;
    ScoreRequestsAppend(front, jc);
    NoScoreRequests(front);
    JudgeCallsRequest(s.judge.value, i + 1, Speaker(s, i).name, TurnMessage(s, o, i), FirstAt(s, base, i));
  }

  lemma {:induction false} ConcatRequests(n: nat, f: nat -> seq<Call>, rs: nat -> ScoreRequest)
    requires forall i :: 0 <= i < n ==> ScoreRequests(f(i)) == [rs(i)]
    ensures |ScoreRequests(Concat(n, f))| == n
    ensures forall i :: 0 <= i < n ==> ScoreRequests(Concat(n, f))[i] == rs(i)
  {
    if n > 0 {
      ConcatRequests(n - 1, f, rs);
      ScoreRequestsAppend(Concat(n - 1, f), f(n - 1));
    }
  }

  /** With a judge, iteration `i` asks for exactly one score, for `Speaker(s, i)`. */
  lemma LoopRequests(s: Setup, o: Oracle, base: set<string>, n: nat)
    requires s.judge.Some?
    ensures |ScoreRequests(LoopCalls(s, o, base, n))| == n
    ensures forall i :: 0 <= i < n ==>
      ScoreRequests(LoopCalls(s, o, base, n))[i] == ScoreRequest(Speaker(s, i).name, FirstAt(s, base, i))
  {
    var rs := (i: nat) => ScoreRequest(Speaker(s, i).name, FirstAt(s, base, i));
    forall i | 0 <= i < n
      ensures ScoreRequests(IterationCallsOf(s, o, base)(i)) == [rs(i)]
    {
      IterationRequests(s, o, base, i);
    }
    ConcatRequests(n, IterationCallsOf(s, o, base), rs);
    LoopCallsConcat(s, o, base, n);
  }

  lemma OpeningJudgeRequests(s: Setup, o: Oracle, scored: set<string>)
    requires s.judge.Some?
    ensures ScoreRequests(OpeningJudgeCalls(s, o, scored)) == [ScoreRequest(s.a.name, s.a.name !in scored)]
  {
    JudgeCallsRequest(s.judge.value, 0, s.a.name, OpeningMessage(s, o), s.a.name !in scored);
  }

  lemma PrefixRequests(s: Setup)
    ensures ScoreRequests(PlanCalls(s) + OpeningCalls(s)) == []
  {
    NoScoreRequests(PlanCalls(s) + OpeningCalls(s));
  }

  lemma ClosingRequests(s: Setup)
    ensures ScoreRequests(ClosingCalls(s)) == []
  {
    NoScoreRequests(ClosingCalls(s));
  }

  /** The score targets of a judged run: the first debater, then each loop speaker. */
  lemma RunRequests(s: Setup, o: Oracle, scored: set<string>)
    requires s.judge.Some?
    ensures |ScoreRequests(RunCalls(s, o, scored))| == 1 + Remaining(s)
    ensures ScoreRequests(RunCalls(s, o, scored))[0] == ScoreRequest(s.a.name, s.a.name !in scored)
    ensures forall i :: 0 <= i < Remaining(s) ==>
      ScoreRequests(RunCalls(s, o, scored))[i + 1] == ScoreRequest(Speaker(s, i).name, FirstAt(s, scored + {s.a.name}, i))
  {
    var p2 := LoopCalls(s, o, LoopBase(s, scored), Remaining(s));
    ScoreRequests4(PlanCalls(s) + OpeningCalls(s), OpeningJudgeCalls(s, o, scored), p2, ClosingCalls(s));
    PrefixRequests(s);
    OpeningJudgeRequests(s, o, scored);
    ClosingRequests(s);
    LoopRequests(s, o, LoopBase(s, scored), Remaining(s));
    assert ScoreRequests(RunCalls(s, o, scored)) == [ScoreRequest(s.a.name, s.a.name !in scored)] + ScoreRequests(p2);
  }

  /** The scored set before iteration `i` is the starting set and every earlier speaker. */
  lemma {:induction false} InScoredBefore(s: Setup, base: set<string>, i: nat, x: string)
    ensures x in ScoredBefore(s, base, i) <==> x in base || exists k :: 0 <= k < i && Speaker(s, k).name == x
  {
    if i > 0 {
      InScoredBefore(s, base, i - 1, x);
      if x == Speaker(s, i - 1).name {
        assert 0 <= i - 1 < i && Speaker(s, i - 1).name == x;
      }
      if exists k :: 0 <= k < i && Speaker(s, k).name == x {
        var k :| 0 <= k < i && Speaker(s, k).name == x;
        if k < i - 1 {
          assert 0 <= k < i - 1 && Speaker(s, k).name == x;
        }
      }
    }
  }

  /** From the closed form of the requests, the first flag is "not seen before". */
  lemma FirstFromRequests(s: Setup, scored: set<string>, rs: seq<ScoreRequest>)
    requires |rs| == 1 + Remaining(s)
    requires rs[0] == ScoreRequest(s.a.name, s.a.name !in scored)
    requires forall i :: 0 <= i < Remaining(s) ==> rs[i + 1] == ScoreRequest(Speaker(s, i).name, FirstAt(s, scored + {s.a.name}, i))
    ensures forall k :: 0 <= k < |rs| ==>
      (rs[k].first <==> rs[k].target !in scored && forall j :: 0 <= j < k ==> rs[j].target != rs[k].target)
  {
    var base := scored + {s.a.name};
    forall k | 0 < k < |rs|
      ensures rs[k].first <==> rs[k].target !in scored && forall j :: 0 <= j < k ==> rs[j].target != rs[k].target
    {
      var i := k - 1;
      var t := Speaker(s, i).name;
      assert rs[k] == ScoreRequest(t, FirstAt(s, base, i));
      InScoredBefore(s, base, i, t);
      if t in ScoredBefore(s, base, i) && t !in scored {
        if t != s.a.name {
          var m :| 0 <= m < i && Speaker(s, m).name == t;
          assert rs[m + 1].target == t;
        } else {
          assert rs[0].target == t;
        }
      }
      if exists j :: 0 <= j < k && rs[j].target == t {
        var j :| 0 <= j < k && rs[j].target == t;
        if j > 0 {
          assert rs[j] == ScoreRequest(Speaker(s, j - 1).name, FirstAt(s, base, j - 1));
        }
      }
    }
  }

  /**
   * A score request asks for a first impression exactly when its target was not
   * scored before the run and is not the target of an earlier request of the run.
   */
  lemma FirstScoreOnce(s: Setup, o: Oracle, scored: set<string>)
    requires s.judge.Some?
    ensures |ScoreRequests(RunCalls(s, o, scored))| == 1 + Remaining(s)
    ensures forall k :: 0 <= k < |ScoreRequests(RunCalls(s, o, scored))| ==>
      var rs := ScoreRequests(RunCalls(s, o, scored));
      rs[k].first <==> rs[k].target !in scored && forall j :: 0 <= j < k ==> rs[j].target != rs[k].target
  {
    RunRequests(s, o, scored);
    FirstFromRequests(s, scored, ScoreRequests(RunCalls(s, o, scored)));
  }

  lemma FreshFirst(s: Setup, rs: seq<ScoreRequest>, k: nat)
    requires |rs| == 1 + Remaining(s) && k < |rs|
    requires rs[0].target == s.a.name
    requires forall i :: 0 <= i < Remaining(s) ==> rs[i + 1].target == Speaker(s, i).name
    requires forall k :: 0 <= k < |rs| ==>
      (rs[k].first <==> rs[k].target !in {} && forall j :: 0 <= j < k ==> rs[j].target != rs[k].target)
    ensures rs[k].first <==> k == 0 || (k == 1 && s.b.name != s.a.name)
  {
    if k >= 1 {
      TargetAt(s, rs, k);
      TargetAt(s, rs, 1);
      if k >= 2 {
        var j := if k % 2 == 0 then 0 else 1;
        assert 0 <= j < k && rs[j].target == rs[k].target;
      }
    }
  }

  /** After the opening, the score targets alternate between the second and the first debater. */
  lemma TargetAt(s: Setup, rs: seq<ScoreRequest>, k: nat)
    requires |rs| == 1 + Remaining(s) && 1 <= k < |rs|
    requires forall i :: 0 <= i < Remaining(s) ==> rs[i + 1].target == Speaker(s, i).name
    ensures rs[k].target == (if k % 2 == 1 then s.b.name else s.a.name)
  {
    assert rs[(k - 1) + 1].target == Speaker(s, k - 1).name;
  }

  /**
   * In a fresh judged run, the first-impression score is requested for the opening
   * speaker and, on the next judged turn, for the other debater, and never again.
   */
  lemma FreshRunFirstScores(s: Setup, o: Oracle, k: nat)
    requires s.judge.Some?
    requires k < |ScoreRequests(RunCalls(s, o, {}))|
    ensures ScoreRequests(RunCalls(s, o, {}))[k].first <==> k == 0 || (k == 1 && s.b.name != s.a.name)
  {
    FirstScoreOnce(s, o, {});
    RunRequests(s, o, {});
    FreshFirst(s, ScoreRequests(RunCalls(s, o, {})), k);
  }

  // ---- no judge ----

  predicate IsJudgeCall(c: Call) {
    c.EvaluateCall? || c.ScoreCall? || c.VerdictCall?
  }

  lemma IterationCallsWithoutJudge(s: Setup, o: Oracle, base: set<string>, i: nat)
    requires s.judge.None?
    ensures forall c :: c in IterationCalls(s, o, base, i) ==> !IsJudgeCall(c)
  {
  }

  lemma {:induction false} ConcatWithoutJudge(n: nat, f: nat -> seq<Call>)
    requires forall i, c :: 0 <= i < n && c in f(i) ==> !IsJudgeCall(c)
    ensures forall c :: c in Concat(n, f) ==> !IsJudgeCall(c)
  {
    if n > 0 {
      ConcatWithoutJudge(n - 1, f);
    }
  }

  lemma LoopCallsWithoutJudge(s: Setup, o: Oracle, base: set<string>, n: nat)
    requires s.judge.None?
    ensures forall c :: c in LoopCalls(s, o, base, n) ==> !IsJudgeCall(c)
  {
    forall i, c | 0 <= i < n && c in IterationCallsOf(s, o, base)(i)
      ensures !IsJudgeCall(c)
    {
      IterationCallsWithoutJudge(s, o, base, i);
    }
    ConcatWithoutJudge(n, IterationCallsOf(s, o, base));
    LoopCallsConcat(s, o, base, n);
  }

  lemma NoJudgeKinds(s: Setup, deliberates: bool)
    requires s.judge.None?
    ensures Score !in ExpectedKinds(s, deliberates) && Verdict !in ExpectedKinds(s, deliberates)
  {
    var loop := Repeat(IterationKinds(false), Remaining(s));
    if Score in loop { RepeatMembers(IterationKinds(false), Remaining(s), Score); }
    if Verdict in loop { RepeatMembers(IterationKinds(false), Remaining(s), Verdict); }
  }

  lemma NoJudgeCalls(s: Setup, o: Oracle, scored: set<string>)
    requires s.judge.None?
    ensures forall c :: c in RunCalls(s, o, scored) ==> !IsJudgeCall(c)
  {
    LoopCallsWithoutJudge(s, o, LoopBase(s, scored), Remaining(s));
  }

  /** Without a judge a run makes no evaluate, score or verdict call and emits no SCORE or VERDICT. */
  lemma NoJudgeNoJudging(s: Setup, o: Oracle, scored: set<string>)
    requires s.judge.None?
    ensures forall c :: c in RunCalls(s, o, scored) ==> !IsJudgeCall(c)
    ensures Score !in Kinds(RunEvents(s, o, scored)) && Verdict !in Kinds(RunEvents(s, o, scored))
  {
    NoJudgeCalls(s, o, scored);
    RunKinds(s, o, scored);
    NoJudgeKinds(s, Deliberates(s, o));
  }

  // ---- colours, header and verdict ----

  predicate ColoredBySpeaker(s: Setup, es: seq<DebateEvent>) {
    forall k :: 0 <= k < |es| ==> es[k].color == ColorOf(ColorMapOf(s), es[k].speaker)
  }

  lemma IterationColors(s: Setup, o: Oracle, base: set<string>, i: nat)
    ensures ColoredBySpeaker(s, IterationEvents(s, o, base, i))
  {
  }

  lemma {:induction false} ConcatColored(s: Setup, n: nat, f: nat -> seq<DebateEvent>)
    requires forall i :: 0 <= i < n ==> ColoredBySpeaker(s, f(i))
    ensures ColoredBySpeaker(s, Concat(n, f))
  {
    if n > 0 {
      ConcatColored(s, n - 1, f);
      ColoredAppend(s, Concat(n - 1, f), f(n - 1));
    }
  }

  lemma LoopColors(s: Setup, o: Oracle, base: set<string>, n: nat)
    ensures ColoredBySpeaker(s, LoopEvents(s, o, base, n))
  {
    forall i | 0 <= i < n
      ensures ColoredBySpeaker(s, Iterations(s, o, base)(i))
    {
      IterationColors(s, o, base, i);
    }
    ConcatColored(s, n, Iterations(s, o, base));
    LoopEventsConcat(s, o, base, n);
  }

  lemma ColoredAppend(s: Setup, xs: seq<DebateEvent>, ys: seq<DebateEvent>)
    requires ColoredBySpeaker(s, xs) && ColoredBySpeaker(s, ys)
    ensures ColoredBySpeaker(s, xs + ys)
  {
    forall k | 0 <= k < |xs + ys|
      ensures (xs + ys)[k].color == ColorOf(ColorMapOf(s), (xs + ys)[k].speaker)
    {
      if k >= |xs| { assert (xs + ys)[k] == ys[k - |xs|]; }
    }
  }

  lemma PartsColored(s: Setup, o: Oracle, scored: set<string>)
    ensures ColoredBySpeaker(s, PrefixEvents(s, o))
    ensures ColoredBySpeaker(s, OpeningJudgeEvents(s, o, scored))
    ensures ColoredBySpeaker(s, ClosingEvents(s, o))
  {
  }

  /**
   * Every event is coloured by its speaker: the judge's colour wins over a debater
   * of the same name, the second debater's over the first's, and "white" for a
   * speaker that is nobody (the HEADER's empty speaker, unless someone is so named).
   */
  lemma EventColors(s: Setup, o: Oracle, scored: set<string>)
    ensures forall e :: e in RunEvents(s, o, scored) ==>
      e.color == (if s.judge.Some? && e.speaker == s.judge.value.name then s.judge.value.color
                  else if e.speaker == s.b.name then s.b.color
                  else if e.speaker == s.a.name then s.a.color
                  else "white")
  {
    var p0, p1 := PrefixEvents(s, o), OpeningJudgeEvents(s, o, scored);
    var p2, p3 := LoopEvents(s, o, LoopBase(s, scored), Remaining(s)), ClosingEvents(s, o);
    PartsColored(s, o, scored);
    LoopColors(s, o, LoopBase(s, scored), Remaining(s));
    ColoredAppend(s, p0, p1);
    ColoredAppend(s, p0 + p1, p2);
    ColoredAppend(s, p0 + p1 + p2, p3);
    assert RunEvents(s, o, scored) == p0 + p1 + p2 + p3;
    ColorMapRule(s.a, s.b, s.judge);
    forall e | e in RunEvents(s, o, scored) ensures e.color == ColorOf(ColorMapOf(s), e.speaker) {
      var k :| 0 <= k < |RunEvents(s, o, scored)| && RunEvents(s, o, scored)[k] == e;
    }
  }

  /**
   * The first event is the HEADER: it names both debaters in order, carries the side
   * map and the colour map, the judge profile only when there is a judge, and the
   * backend identifiers only in the engine.
   */
  lemma HeaderFirst(s: Setup, o: Oracle, scored: set<string>)
    ensures var e := RunEvents(s, o, scored)[0];
      e.kind == Header && e.speaker == "" && e.content == ""
      && e.metadata.HeaderMeta?
      && e.metadata.participants == [s.a.name, s.b.name]
      && e.metadata.sides == SidesOf(s.a, s.b)
      && e.metadata.colors == ColorMap(s.a, s.b, s.judge)
      && (e.metadata.judge.Some? <==> s.judge.Some?)
      && (e.metadata.judge.Some? ==> e.metadata.judge.value.name == s.judge.value.name)
      && (e.metadata.models.Some? <==> s.variant == Engine)
      && (e.metadata.judge.Some? ==> (e.metadata.judge.value.model.Some? <==> s.variant == Engine))
  {
  }

  /**
   * A judged run ends with the judge's VERDICT, which carries the winner, the
   * premise and the premise verdict derived from the winner's side; in the engine a
   * non-empty deliberation comes just before it as the judge's THINK.
   */
  lemma VerdictLast(s: Setup, o: Oracle, scored: set<string>)
    requires s.judge.Some?
    ensures var es := RunEvents(s, o, scored);
      var r := VerdictReplyOf(s, o);
      var e := es[|es| - 1];
      e.kind == Verdict && e.speaker == s.judge.value.name && e.color == s.judge.value.color
      && e.metadata == VerdictMeta(r.winner, r.scores.GetOr(map[]), s.premise, PremiseUpheld(s.premise, r.winner, SidesOf(s.a, s.b)))
    ensures var es := RunEvents(s, o, scored);
      var r := VerdictReplyOf(s, o);
      s.variant == Engine && Truthy(r.deliberation) ==>
        |es| >= 2 && es[|es| - 2].kind == Think && es[|es| - 2].speaker == s.judge.value.name
        && es[|es| - 2].content == r.deliberation.value
  {
    var es := RunEvents(s, o, scored);
    var p3 := VerdictEvents(s, o);
    var front := [HeaderEvent(s)] + PlanEvents(s, o) + OpeningEvents(s, o)
      + JudgeEvents(s, o, s.judge.value, 0, s.a.name, OpeningMessage(s, o), s.a.name !in scored)
      + LoopEvents(s, o, LoopBase(s, scored), Remaining(s));
    assert es == front + p3;
    assert es[|es| - 1] == p3[|p3| - 1];
    if |p3| == 2 {
      assert es[|es| - 2] == p3[0];
    }
  }
}
