/**
 * The judge-capable participant of the phase engine: its configuration, its
 * conversation history, and the protocol by which a judge's verdict is obtained —
 * a private deliberation, a structured extraction retried up to three times with a
 * total fallback, and a public announcement.
 *
 * The generation backend is not modelled: each exchange is given the reply the
 * backend sends, and each extraction attempt is given its reply together with what
 * the JSON reader made of it.
 */
module EngineAgent {
  import opened Wrappers
  import opened PyText
  import opened ChatLog
  import Roles

  /** A key of a decoded JSON object: absent, or present with its value. */
  datatype Key<T> = Absent | Present(value: T)

  /**
   * The keys of a decoded verdict object that the protocol looks at. A winner key
   * holding a value that is not a string (`null`, a number) is `Present(None)`.
   */
  datatype Parsed = Parsed(winner: Key<Option<string>>, scores: Key<map<string, int>>)

  /** The empty object `{}`. */
  const NoKeys := Parsed(Absent, Absent)

  /** One thing wrong with a previous extraction, as a retry prompt lists it. */
  datatype Problem = WinnerNotInNames(got: Key<Option<string>>) | MissingScore(name: string)

  /** The extraction prompt: the first one, or a retry listing the problems. */
  datatype Prompt = BasePrompt | RetryPrompt(problems: seq<Problem>)

  datatype Stance = For | Against

  /** One line of the premise context: a debater, the side it argued, the premise. */
  datatype ContextLine = ContextLine(name: string, stance: Stance, premise: string)

  /**
   * The content of a history entry. Prompt wording is not modelled: a prompt is
   * identified by what it is and by the data it interpolates.
   */
  datatype Message =
    | Text(text: string)
    | Deliberation(context: seq<ContextLine>)
    | Extraction(prompt: Prompt)
    | Announcement

  /** One extraction attempt's reply, and its decoding (`None` when the reader raises). */
  datatype Try = Try(reply: string, decoded: Option<Parsed>)

  /** The configuration keys an agent reads; an absent optional key is `None`. */
  datatype AgentConfig = AgentConfig(
    name: string,
    model: string,
    color: Option<string>,
    personality: Option<string>,
    position: Option<string>,
    judgingCriteria: Option<string>,
    instructions: Option<string>,
    side: Option<string>)

  /** The system directive: personality, position, judging criteria and instructions. */
  function DirectiveOf(c: AgentConfig): (d: string)
    ensures Stripped(d)
    ensures d == [] <==> AllSpace(c.personality.GetOr("")) && AllSpace(c.position.GetOr("")) &&
                         AllSpace(c.judgingCriteria.GetOr("")) && AllSpace(c.instructions.GetOr(""))
  {
    var fields := [c.personality.GetOr(""), c.position.GetOr(""), c.judgingCriteria.GetOr(""), c.instructions.GetOr("")];
    DirectiveShape(fields);
    assert (forall i :: 0 <= i < |fields| ==> AllSpace(fields[i])) <==>
           AllSpace(fields[0]) && AllSpace(fields[1]) && AllSpace(fields[2]) && AllSpace(fields[3]);
    SystemDirective(fields)
  }

  /** With only judging criteria configured, the directive is those criteria, stripped. */
  lemma CriteriaOnly(c: AgentConfig)
    requires c.personality.None? && c.position.None? && c.instructions.None?
    requires !AllSpace(c.judgingCriteria.GetOr(""))
    ensures DirectiveOf(c) == Strip(c.judgingCriteria.value)
  {
    DirectiveOfOne([c.personality.GetOr(""), c.position.GetOr(""), c.judgingCriteria.GetOr(""), c.instructions.GetOr("")], 2);
  }

  /**
   * The directive joins, with blank lines, what is kept of personality, position,
   * judging criteria and instructions, in that order (`KeptSingle` says what is
   * kept of one field).
   */
  lemma DirectiveOrder(c: AgentConfig)
    ensures DirectiveOf(c) == Join("\n\n", Kept([c.personality.GetOr("")]) + Kept([c.position.GetOr("")]) +
                                          Kept([c.judgingCriteria.GetOr("")]) + Kept([c.instructions.GetOr("")]))
  {
    var p, q, r, t := c.personality.GetOr(""), c.position.GetOr(""), c.judgingCriteria.GetOr(""), c.instructions.GetOr("");
    KeptFour(p, q, r, t);
  }

  /** A personality and judging criteria alone: the personality comes first, then a blank line, then the criteria. */
  lemma PersonalityThenCriteria(c: AgentConfig)
    requires c.position.None? && c.instructions.None?
    requires !AllSpace(c.personality.GetOr("")) && !AllSpace(c.judgingCriteria.GetOr(""))
    ensures DirectiveOf(c) == Strip(c.personality.value) + "\n\n" + Strip(c.judgingCriteria.value)
  {
    DirectiveOfTwo([c.personality.GetOr(""), c.position.GetOr(""), c.judgingCriteria.GetOr(""), c.instructions.GetOr("")], 0, 2);
  }

  /** The scores of a decoded object, `{}` when the key is absent. */
  function ScoresOf(r: Parsed): map<string, int> {
    if r.scores.Present? then r.scores.value else map[]
  }

  /** Every name has a score. */
  predicate Covers(names: seq<string>, scores: map<string, int>) {
    forall i :: 0 <= i < |names| ==> names[i] in scores
  }

  /** The winner is one of the names. */
  predicate WinnerOk(names: seq<string>, r: Parsed) {
    r.winner.Present? && r.winner.value.Some? && r.winner.value.value in names
  }

  /** An extraction the protocol accepts: a winner among the names and a score for each. */
  predicate Usable(names: seq<string>, r: Parsed) {
    WinnerOk(names, r) && Covers(names, ScoresOf(r))
  }

  /** The names that have no score, in order. */
  function Missing(names: seq<string>, scores: map<string, int>): (ms: seq<string>)
    ensures |ms| <= |names|
  {
    if names == [] then []
    else
      (if names[0] in scores then [] else [names[0]]) + Missing(names[1..], scores)
  }

  /** A name is listed as missing exactly when it has no score; none is exactly when all have one. */
  lemma {:induction false} MissingRule(names: seq<string>, scores: map<string, int>)
    ensures forall n :: n in Missing(names, scores) <==> n in names && n !in scores
    ensures Missing(names, scores) == [] <==> Covers(names, scores)
  {
    if names != [] {
      MissingRule(names[1..], scores);
      assert forall i :: 1 <= i < |names| ==> names[i] == names[1..][i - 1];
      assert forall n :: n in names <==> n == names[0] || n in names[1..];
    }
  }

  /** The retry problems for a list of names without a score. */
  function Listed(ms: seq<string>): (ps: seq<Problem>)
    ensures |ps| == |ms|
  {
    if ms == [] then [] else [MissingScore(ms[0])] + Listed(ms[1..])
  }

  lemma {:induction false} ListedAt(ms: seq<string>, i: nat)
    requires i < |ms|
    ensures Listed(ms)[i] == MissingScore(ms[i])
  {
    if i > 0 {
      ListedAt(ms[1..], i - 1);
    }
  }

  /** The problems a retry prompt lists about the previous result. */
  function Problems(names: seq<string>, r: Parsed): seq<Problem> {
    (if WinnerOk(names, r) then [] else [WinnerNotInNames(r.winner)])
    + Listed(Missing(names, ScoresOf(r)))
  }

  /**
   * A retry lists a problem exactly when something is wrong: one for a winner not
   * among the names, and one for each name without a score; after a reply that
   * could not be read, that is every one of them.
   */
  lemma ProblemsRule(names: seq<string>, r: Parsed)
    ensures Problems(names, r) == [] <==> Usable(names, r)
    ensures |Problems(names, r)| == (if WinnerOk(names, r) then 0 else 1) + |Missing(names, ScoresOf(r))|
    ensures !WinnerOk(names, r) <==> Problems(names, r) != [] && Problems(names, r)[0].WinnerNotInNames?
    ensures forall n :: MissingScore(n) in Problems(names, r) <==> n in names && n !in ScoresOf(r)
    ensures r == NoKeys ==> |Problems(names, r)| == 1 + |names|
  {
    MissingRule(names, ScoresOf(r));
    ProblemsHead(names, r);
    ProblemsMissing(names, r);
    if r == NoKeys {
      MissingAll(names);
    }
  }

  /** The winner problem comes first, and nothing is listed exactly when the result is acceptable. */
  lemma ProblemsHead(names: seq<string>, r: Parsed)
    ensures Problems(names, r) == [] <==> Usable(names, r)
    ensures !WinnerOk(names, r) <==> Problems(names, r) != [] && Problems(names, r)[0].WinnerNotInNames?
  {
    var ms := Missing(names, ScoresOf(r));
    MissingRule(names, ScoresOf(r));
    if !WinnerOk(names, r) {
      assert Problems(names, r)[0] == WinnerNotInNames(r.winner);
    } else if ms != [] {
      ListedAt(ms, 0);
    }
  }

  /** A missing-score problem is listed for exactly the names without a score. */
  lemma ProblemsMissing(names: seq<string>, r: Parsed)
    ensures forall n :: MissingScore(n) in Problems(names, r) <==> n in names && n !in ScoresOf(r)
  {
    var ms := Missing(names, ScoresOf(r));
    var ps := Problems(names, r);
    var w := if WinnerOk(names, r) then 0 else 1;
    MissingRule(names, ScoresOf(r));
    forall n ensures MissingScore(n) in ps <==> n in ms {
      if n in ms {
        var i :| 0 <= i < |ms| && ms[i] == n;
        ListedAt(ms, i);
        assert ps[w + i] == MissingScore(n);
      } else if MissingScore(n) in ps {
        var i :| 0 <= i < |ps| && ps[i] == MissingScore(n);
        ListedAt(ms, i - w);
      }
    }
  }

  /** With no scores at all, every name is missing. */
  lemma {:induction false} MissingAll(names: seq<string>)
    ensures Missing(names, map[]) == names
  {
    if names != [] {
      MissingAll(names[1..]);
    }
  }

  /**
   * `max(names[..n], key=scores.get)`: the position of the first name with the
   * highest score, as Python's `max` keeps the first of equal maxima.
   */
  function FirstMax(names: seq<string>, scores: map<string, int>, n: nat): (k: nat)
    requires 1 <= n <= |names| && Covers(names, scores)
    ensures k < n
    ensures forall j :: 0 <= j < n ==> scores[names[j]] <= scores[names[k]]
    ensures forall j :: 0 <= j < k ==> scores[names[j]] < scores[names[k]]
  {
    if n == 1 then 0
    else
      var k := FirstMax(names, scores, n - 1);
      if scores[names[n - 1]] > scores[names[k]] then n - 1 else k
  }

  /** For two debaters the second wins the argmax only with a strictly higher score. */
  lemma FirstMaxOfTwo(names: seq<string>, scores: map<string, int>)
    requires |names| == 2 && Covers(names, scores) && names[0] != names[1]
    ensures names[FirstMax(names, scores, 2)] == names[1] <==> scores[names[1]] > scores[names[0]]
  {
  }

  /**
   * The fallback after three attempts: with a score for every name the winner is
   * the first highest-scored name; otherwise the winner and the scores are filled
   * in only where their keys are absent.
   */
  function Fallback(names: seq<string>, r: Parsed): Parsed
    requires names != []
  {
    var scores := ScoresOf(r);
    if Covers(names, scores) then
      r.(winner := Present(Some(names[FirstMax(names, scores, |names|)])))
    else
      Parsed(if r.winner.Absent? then Present(Some(names[0])) else r.winner,
             if r.scores.Absent? then Present(map n | n in names :: 5) else r.scores)
  }

  /**
   * Per path: with every score present, the scores stay and the winner is a name
   * with the highest score, every earlier name scoring less; otherwise a present
   * winner and present scores are kept as they are, an absent winner becomes the
   * first name and absent scores become 5 for every name.
   */
  lemma FallbackRule(names: seq<string>, r: Parsed)
    requires names != []
    ensures var f := Fallback(names, r);
            Covers(names, ScoresOf(r)) ==>
              f.scores == r.scores && f.winner.Present? &&
              exists k :: 0 <= k < |names| && f.winner.value == Some(names[k]) &&
                (forall j :: 0 <= j < |names| ==> ScoresOf(r)[names[j]] <= ScoresOf(r)[names[k]]) &&
                (forall j :: 0 <= j < k ==> ScoresOf(r)[names[j]] < ScoresOf(r)[names[k]])
    ensures var f := Fallback(names, r);
            !Covers(names, ScoresOf(r)) ==>
              (r.winner.Absent? ==> f.winner == Present(Some(names[0]))) &&
              (r.winner.Present? ==> f.winner == r.winner) &&
              (r.scores.Absent? ==> f.scores.Present? && f.scores.value.Keys == (set n | n in names) &&
                                    forall n :: n in names ==> f.scores.value[n] == 5) &&
              (r.scores.Present? ==> f.scores == r.scores)
  {
    if Covers(names, ScoresOf(r)) {
      var k := FirstMax(names, ScoresOf(r), |names|);
      assert Fallback(names, r).winner.value == Some(names[k]);
    }
  }

  /**
   * The fallback yields an acceptable verdict exactly when the last result had a
   * score for every name, or had no scores and no winner other than one of the names.
   */
  lemma FallbackUsable(names: seq<string>, r: Parsed)
    requires names != []
    ensures Usable(names, Fallback(names, r)) <==>
              Covers(names, ScoresOf(r)) ||
              (r.scores.Absent? && (r.winner.Absent? || WinnerOk(names, r)))
  {
    var f := Fallback(names, r);
    if !Covers(names, ScoresOf(r)) && r.scores.Present? {
      assert ScoresOf(f) == ScoresOf(r);
    }
  }

  /** A stale winner that is not a debater survives the fallback next to partial scores. */
  lemma StaleWinnerSurvives()
    ensures var f := Fallback(["Ada", "Bo"], Parsed(Present(Some("Cy")), Present(map["Ada" := 7])));
            f.winner == Present(Some("Cy")) && !Usable(["Ada", "Bo"], f)
  {
    var names := ["Ada", "Bo"];
    var r := Parsed(Present(Some("Cy")), Present(map["Ada" := 7]));
    assert names[1] !in ScoresOf(r);
  }

  /**
   * A `null` winner next to partial scores is reported as a problem and is kept by
   * the fallback, since `setdefault` only fills an absent key.
   */
  lemma NullWinnerSurvives()
    ensures var r := Parsed(Present(None), Present(map["Ada" := 7]));
            Problems(["Ada", "Bo"], r) == [WinnerNotInNames(Present(None)), MissingScore("Bo")] &&
            Fallback(["Ada", "Bo"], r).winner == Present(None)
  {
    var names := ["Ada", "Bo"];
    var r := Parsed(Present(None), Present(map["Ada" := 7]));
    assert names[1] !in ScoresOf(r);
    assert Missing(names, ScoresOf(r)) == ["Bo"] by {
      MissingRule(names, ScoresOf(r));
    }
  }

  /** What the extraction protocol ends with: the result, the history, and whether it fell back. */
  datatype Extracted = Extracted(result: Parsed, history: seq<Entry<Message>>, fellBack: bool)

  /** The prompt of an attempt, given the result the previous attempt left. */
  function AttemptPrompt(names: seq<string>, attempt: nat, previous: Parsed): Prompt {
    if attempt == 0 then BasePrompt else RetryPrompt(Problems(names, previous))
  }

  /** An attempt whose reply decodes to an acceptable verdict. */
  predicate Accepted(names: seq<string>, t: Try) {
    t.decoded.Some? && Usable(names, t.decoded.value)
  }

  /** The result an attempt leaves behind: what was decoded, or `{}` when nothing was. */
  function Left(t: Try): Parsed {
    if t.decoded.Some? then t.decoded.value else NoKeys
  }

  /**
   * The extraction protocol from `attempt` on, with `previous` the result the last
   * attempt left: each attempt is one exchange; an acceptable decoding ends the
   * protocol, anything else is carried to the next attempt, and after the third
   * attempt the fallback completes the result.
   */
  function Attempts(names: seq<string>, tries: seq<Try>, history: seq<Entry<Message>>,
                    attempt: nat, previous: Parsed): Extracted
    requires names != [] && |tries| == 3 && attempt <= 3
    decreases 3 - attempt
  {
    if attempt == 3 then Extracted(Fallback(names, previous), history, true)
    else
      var t := tries[attempt];
      var h := history + [Entry(User, Extraction(AttemptPrompt(names, attempt, previous))),
                          Entry(Assistant, Text(t.reply))];
      if Accepted(names, t) then Extracted(t.decoded.value, h, false)
      else Attempts(names, tries, h, attempt + 1, Left(t))
  }

  /**
   * The protocol adds one exchange per attempt made, at most one per remaining
   * attempt, on top of the history it started from, the first of them asking with
   * this attempt's prompt; it returns early only with an acceptable result, and
   * falling back means every remaining attempt was made.
   */
  lemma {:induction false} AttemptsShape(names: seq<string>, tries: seq<Try>, history: seq<Entry<Message>>,
                                         attempt: nat, previous: Parsed)
    requires names != [] && |tries| == 3 && attempt < 3
    ensures var o := Attempts(names, tries, history, attempt, previous);
            |history| < |o.history| && history <= o.history &&
            o.history[|history|] == Entry(User, Extraction(AttemptPrompt(names, attempt, previous))) &&
            (|o.history| - |history|) % 2 == 0 &&
            |o.history| - |history| <= 2 * (3 - attempt) &&
            (!o.fellBack ==> Usable(names, o.result)) &&
            (o.fellBack ==> |o.history| - |history| == 2 * (3 - attempt))
    decreases 3 - attempt
  {
    var t := tries[attempt];
    var u, a := Entry(User, Extraction(AttemptPrompt(names, attempt, previous))), Entry(Assistant, Text(t.reply));
    var h := history + [u, a];
    var o := Attempts(names, tries, history, attempt, previous);
    if Accepted(names, t) {
      assert o == Extracted(t.decoded.value, h, false);
      Extended(history, u, a, h);
    } else {
      var next := Attempts(names, tries, h, attempt + 1, Left(t));
      assert o == next;
      if attempt < 2 {
        AttemptsShape(names, tries, h, attempt + 1, Left(t));
      } else {
        assert next.history == h && next.fellBack;
      }
      Extended(history, u, a, next.history);
    }
  }

  /**
   * The protocol returns at the first acceptable attempt, with exactly what that
   * attempt decoded, after one exchange per attempt made.
   */
  lemma {:induction false} EarlyReturn(names: seq<string>, tries: seq<Try>, history: seq<Entry<Message>>,
                                       attempt: nat, previous: Parsed, k: nat)
    requires names != [] && |tries| == 3 && attempt <= k < 3
    requires forall j :: attempt <= j < k ==> !Accepted(names, tries[j])
    requires Accepted(names, tries[k])
    ensures var o := Attempts(names, tries, history, attempt, previous);
            !o.fellBack && o.result == tries[k].decoded.value &&
            |o.history| == |history| + 2 * (k + 1 - attempt)
    decreases k - attempt
  {
    if attempt < k {
      var t := tries[attempt];
      var h := history + [Entry(User, Extraction(AttemptPrompt(names, attempt, previous))),
                          Entry(Assistant, Text(t.reply))];
      EarlyReturn(names, tries, h, attempt + 1, Left(t), k);
    }
  }

  /**
   * When no attempt is acceptable the protocol makes all three, and the fallback
   * works from what the last attempt alone left: earlier partial results are lost.
   */
  lemma {:induction false} ThreeFailures(names: seq<string>, tries: seq<Try>, history: seq<Entry<Message>>,
                                         attempt: nat, previous: Parsed)
    requires names != [] && |tries| == 3 && attempt < 3
    requires forall j :: attempt <= j < 3 ==> !Accepted(names, tries[j])
    ensures var o := Attempts(names, tries, history, attempt, previous);
            o.fellBack && o.result == Fallback(names, Left(tries[2])) &&
            |o.history| == |history| + 2 * (3 - attempt)
    decreases 3 - attempt
  {
    var t := tries[attempt];
    var h := history + [Entry(User, Extraction(AttemptPrompt(names, attempt, previous))),
                        Entry(Assistant, Text(t.reply))];
    if attempt < 2 {
      ThreeFailures(names, tries, h, attempt + 1, Left(t));
    }
  }

  /**
   * When the first attempt is not accepted, the second prompt is a retry that lists
   * at least one problem, and every problem of `{}` when the first reply could not
   * be decoded.
   */
  lemma SecondPromptIsRetry(names: seq<string>, tries: seq<Try>, history: seq<Entry<Message>>)
    requires names != [] && |tries| == 3
    requires !Accepted(names, tries[0])
    ensures var o := Attempts(names, tries, history, 0, NoKeys);
            |o.history| >= |history| + 4 &&
            o.history[|history| + 2] == Entry(User, Extraction(RetryPrompt(Problems(names, Left(tries[0]))))) &&
            Problems(names, Left(tries[0])) != [] &&
            (tries[0].decoded.None? ==> |Problems(names, Left(tries[0]))| == 1 + |names|)
  {
    var t := tries[0];
    var h := history + [Entry(User, Extraction(BasePrompt)), Entry(Assistant, Text(t.reply))];
    ProblemsRule(names, Left(t));
    AttemptsShape(names, tries, h, 1, Left(t));
  }

  /** The verdict a judge returns: the extracted keys, the announcement and the deliberation. */
  datatype VerdictResult = VerdictResult(
    winner: Key<Option<string>>,
    scores: Key<map<string, int>>,
    reasoning: string,
    deliberation: string)

  /** `"FOR" if side == "for" else "AGAINST"`. */
  function StanceOf(side: string): Stance {
    if side == "for" then For else Against
  }

  /**
   * The premise context: one line per name whose side is non-empty, in the order of
   * the names, and none at all unless the premise and the side map are both non-empty.
   */
  function ContextLines(names: seq<string>, premise: Option<string>, sides: Option<map<string, string>>): seq<ContextLine> {
    if Roles.Truthy(premise) && sides.Some? && sides.value != map[] then
      SideLines(names, premise.value, sides.value)
    else []
  }

  /** The context lines over `names`, for a non-empty premise and side map. */
  function SideLines(names: seq<string>, premise: string, sides: map<string, string>): seq<ContextLine> {
    if names == [] then []
    else
      var n := names[0];
      (if n in sides && sides[n] != "" then [ContextLine(n, StanceOf(sides[n]), premise)] else [])
      + SideLines(names[1..], premise, sides)
  }

  /** The debater has a non-empty side. */
  predicate HasSide(sides: map<string, string>, n: string) {
    n in sides && sides[n] != ""
  }

  /** The line for a debater with a side: FOR exactly when the side is "for". */
  function LineFor(sides: map<string, string>, n: string, premise: string): (l: ContextLine)
    requires n in sides
    ensures l.name == n && l.premise == premise
    ensures l.stance == For <==> sides[n] == "for"
  {
    ContextLine(n, StanceOf(sides[n]), premise)
  }

  /**
   * Every line is the line of a debater with a non-empty side, and every such
   * debater has its line.
   */
  lemma {:induction false} SideLinesRule(names: seq<string>, premise: string, sides: map<string, string>)
    ensures |SideLines(names, premise, sides)| <= |names|
    ensures forall l :: l in SideLines(names, premise, sides) ==>
              l.name in names && HasSide(sides, l.name) && l == LineFor(sides, l.name, premise)
    ensures forall n :: n in names && HasSide(sides, n) ==> LineFor(sides, n, premise) in SideLines(names, premise, sides)
  {
    if names != [] {
      SideLinesRule(names[1..], premise, sides);
      assert names == [names[0]] + names[1..];
    }
  }

  /**
   * The premise context holds exactly the lines of the debaters with a non-empty
   * side, and none at all unless the premise and the side map are both non-empty.
   */
  lemma ContextLinesRule(names: seq<string>, premise: Option<string>, sides: Option<map<string, string>>)
    ensures !Roles.Truthy(premise) || sides.None? || sides.value == map[] ==> ContextLines(names, premise, sides) == []
    ensures |ContextLines(names, premise, sides)| <= |names|
    ensures Roles.Truthy(premise) && sides.Some? ==>
              (forall l :: l in ContextLines(names, premise, sides) ==>
                 l.name in names && HasSide(sides.value, l.name) && l == LineFor(sides.value, l.name, premise.value)) &&
              (forall n :: n in names && HasSide(sides.value, n) ==>
                 LineFor(sides.value, n, premise.value) in ContextLines(names, premise, sides))
  {
    if Roles.Truthy(premise) && sides.Some? && sides.value != map[] {
      SideLinesRule(names, premise.value, sides.value);
    }
  }

  /** What a verdict ends with: the result and the history. */
  datatype Judged = Judged(result: VerdictResult, history: seq<Entry<Message>>)

  /**
   * The verdict protocol: the deliberation exchange (with the premise context), the
   * extraction protocol, then the announcement exchange, whose reply becomes the
   * reasoning; the deliberation reply is returned alongside.
   */
  function VerdictRun(names: seq<string>, premise: Option<string>, sides: Option<map<string, string>>,
                      deliberation: string, tries: seq<Try>, reasoning: string,
                      history: seq<Entry<Message>>): Judged
    requires names != [] && |tries| == 3
  {
    var start := history + [Entry(User, Deliberation(ContextLines(names, premise, sides))),
                            Entry(Assistant, Text(deliberation))];
    var o := Attempts(names, tries, start, 0, NoKeys);
    Judged(VerdictResult(o.result.winner, o.result.scores, reasoning, deliberation),
           o.history + [Entry(User, Announcement), Entry(Assistant, Text(reasoning))])
  }

  /**
   * A verdict adds between six and ten entries to the history, two per exchange,
   * and keeps what was there.
   */
  lemma VerdictGrowth(names: seq<string>, premise: Option<string>, sides: Option<map<string, string>>,
                      deliberation: string, tries: seq<Try>, reasoning: string, history: seq<Entry<Message>>)
    requires names != [] && |tries| == 3
    ensures var h := VerdictRun(names, premise, sides, deliberation, tries, reasoning, history).history;
            6 <= |h| - |history| <= 10 && (|h| - |history|) % 2 == 0 && history <= h
  {
    var start := history + [Entry(User, Deliberation(ContextLines(names, premise, sides))), Entry(Assistant, Text(deliberation))];
    AttemptsShape(names, tries, start, 0, NoKeys);
    var o := Attempts(names, tries, start, 0, NoKeys);
    assert history <= start;
    Appended(history, o.history, Entry(User, Announcement), Entry(Assistant, Text(reasoning)));
  }

  /**
   * A verdict opens with the deliberation exchange and closes with the announcement
   * exchange, and the result carries both replies.
   */
  lemma VerdictExchanges(names: seq<string>, premise: Option<string>, sides: Option<map<string, string>>,
                         deliberation: string, tries: seq<Try>, reasoning: string, history: seq<Entry<Message>>)
    requires names != [] && |tries| == 3
    ensures var j := VerdictRun(names, premise, sides, deliberation, tries, reasoning, history);
            var h := j.history;
            |h| >= |history| + 4 &&
            h[|history|] == Entry(User, Deliberation(ContextLines(names, premise, sides))) &&
            h[|history| + 1] == Entry(Assistant, Text(deliberation)) &&
            h[|h| - 2] == Entry(User, Announcement) &&
            h[|h| - 1] == Entry(Assistant, Text(reasoning)) &&
            j.result.deliberation == deliberation && j.result.reasoning == reasoning
  {
    var u, a := Entry(User, Deliberation(ContextLines(names, premise, sides))), Entry(Assistant, Text(deliberation));
    var start := history + [u, a];
    AttemptsShape(names, tries, start, 0, NoKeys);
    var o := Attempts(names, tries, start, 0, NoKeys);
    Extended(history, u, a, o.history);
    Appended(history, o.history, Entry(User, Announcement), Entry(Assistant, Text(reasoning)));
  }

  /** A participant of the phase engine: its configuration and its conversation history. */
  class Agent {
    const name: string
    const model: string
    const color: string
    const personality: string
    const judgingCriteria: string
    const side: Option<string>
    var history: seq<Entry<Message>>

    ghost predicate Valid()
      reads this
    {
      WellFormed(history)
    }

    /** Reads the configuration; the history is the system directive alone. */
    constructor (config: AgentConfig)
      ensures Valid()
      ensures name == config.name && model == config.model && side == config.side
      ensures color == config.color.GetOr("white")
      ensures personality == Strip(config.personality.GetOr(""))
      ensures judgingCriteria == Strip(config.judgingCriteria.GetOr(""))
      ensures history == [Entry(System, Text(DirectiveOf(config)))]
    {
      name := config.name;
      model := config.model;
      color := config.color.GetOr("white");
      personality := Strip(config.personality.GetOr(""));
      judgingCriteria := Strip(config.judgingCriteria.GetOr(""));
      side := config.side;
      history := [Entry(System, Text(DirectiveOf(config)))];
    }

    /** One exchange: the message, then the backend's reply, which is returned. */
    method Chat(message: Message, reply: string) returns (answer: string)
      requires Valid()
      modifies this
      ensures Valid()
      ensures answer == reply
      ensures history == old(history) + [Entry(User, message), Entry(Assistant, Text(reply))]
    {
      history := history + [Entry(User, message)];
      answer := reply;
      history := history + [Entry(Assistant, Text(answer))];
    }

    /** Forgets every exchange and keeps the system entry. */
    method Reset()
      requires Valid()
      modifies this
      ensures Valid()
      ensures history == Restart(old(history))
    {
      RestartRule(history);
      history := [history[0]];
    }

    /** The problems of the previous result, one per check that fails. */
    static method ListProblems(names: seq<string>, previous: Parsed) returns (problems: seq<Problem>)
      ensures problems == Problems(names, previous)
    {
      problems := [];
      if !WinnerOk(names, previous) {
        problems := problems + [WinnerNotInNames(previous.winner)];
      }
      var scores := ScoresOf(previous);
      var i := 0;
      while i < |names|
        invariant 0 <= i <= |names|
        invariant problems == (if WinnerOk(names, previous) then [] else [WinnerNotInNames(previous.winner)])
                              + Listed(Missing(names[..i], scores))
      {
        ghost var w := if WinnerOk(names, previous) then [] else [WinnerNotInNames(previous.winner)];
        ghost var ms := Missing(names[..i], scores);
        MissingSnoc(names[..i], names[i], scores);
        ListedSnoc(ms, names[i]);
        assert names[..i + 1] == names[..i] + [names[i]];
        if names[i] !in scores {
          problems := problems + [MissingScore(names[i])];
          assert problems == w + (Listed(ms) + [MissingScore(names[i])]);
        } else {
          assert Missing(names[..i + 1], scores) == ms;
        }
        i := i + 1;
      }
      assert names[..i] == names;
    }

    /** Asks for the verdict as JSON, up to three times, and falls back when no answer is acceptable. */
    method ExtractVerdictJson(names: seq<string>, tries: seq<Try>) returns (result: Parsed)
      requires Valid() && |names| >= 2 && |tries| == 3
      modifies this
      ensures Valid()
      ensures var o := Attempts(names, tries, old(history), 0, NoKeys);
              result == o.result && history == o.history
    {
      result := NoKeys;
      var attempt := 0;
      while attempt < 3
        invariant 0 <= attempt <= 3 && Valid()
        invariant Attempts(names, tries, old(history), 0, NoKeys) == Attempts(names, tries, history, attempt, result)
      {
        var prompt := BasePrompt;
        if attempt > 0 {
          var problems := ListProblems(names, result);
          prompt := RetryPrompt(problems);
        }
        var reply := Chat(Extraction(prompt), tries[attempt].reply);
        var decoded := tries[attempt].decoded;
        if decoded.None? {
          result := NoKeys;
          attempt := attempt + 1;
          continue;
        }
        result := decoded.value;
        if Usable(names, result) {
          return;
        }
        attempt := attempt + 1;
      }
      result := Fallback(names, result);
    }

    /** The premise context lines, built name by name. */
    static method PremiseContext(names: seq<string>, premise: Option<string>, sides: Option<map<string, string>>)
      returns (lines: seq<ContextLine>)
      ensures lines == ContextLines(names, premise, sides)
    {
      lines := [];
      if Roles.Truthy(premise) && sides.Some? && sides.value != map[] {
        var i := 0;
        while i < |names|
          invariant 0 <= i <= |names|
          invariant lines == SideLines(names[..i], premise.value, sides.value)
        {
          SideLinesSnoc(names[..i], names[i], premise.value, sides.value);
          assert names[..i + 1] == names[..i] + [names[i]];
          var n := names[i];
          if n in sides.value && sides.value[n] != "" {
            lines := lines + [ContextLine(n, StanceOf(sides.value[n]), premise.value)];
          }
          i := i + 1;
        }
        assert names[..i] == names;
      }
    }

    /** Deliberates, extracts the verdict, and announces it. */
    method Verdict(names: seq<string>, premise: Option<string>, sides: Option<map<string, string>>,
                   deliberationReply: string, tries: seq<Try>, announcementReply: string) returns (v: VerdictResult)
      requires Valid() && |names| >= 2 && |tries| == 3
      modifies this
      ensures Valid()
      ensures Judged(v, history) == VerdictRun(names, premise, sides, deliberationReply, tries, announcementReply, old(history))
    {
      var lines := PremiseContext(names, premise, sides);
      var deliberation := Chat(Deliberation(lines), deliberationReply);
      var result := ExtractVerdictJson(names, tries);
      var reasoning := Chat(Announcement, announcementReply);
      v := VerdictResult(result.winner, result.scores, reasoning, deliberation);
    }
  }

  lemma {:induction false} MissingSnoc(names: seq<string>, n: string, scores: map<string, int>)
    ensures Missing(names + [n], scores) == Missing(names, scores) + (if n in scores then [] else [n])
  {
    if names == [] {
      assert [n] + [] == [n];
    } else {
      assert (names + [n])[1..] == names[1..] + [n];
      MissingSnoc(names[1..], n, scores);
    }
  }

  lemma {:induction false} SideLinesSnoc(names: seq<string>, n: string, premise: string, sides: map<string, string>)
    ensures SideLines(names + [n], premise, sides) == SideLines(names, premise, sides) +
              (if n in sides && sides[n] != "" then [ContextLine(n, StanceOf(sides[n]), premise)] else [])
  {
    if names == [] {
      assert [n][1..] == [];
    } else {
      assert (names + [n])[1..] == names[1..] + [n];
      SideLinesSnoc(names[1..], n, premise, sides);
    }
  }

  lemma {:induction false} ListedSnoc(ms: seq<string>, n: string)
    ensures Listed(ms + [n]) == Listed(ms) + [MissingScore(n)]
  {
    if ms == [] {
      assert [n][1..] == [];
    } else {
      assert (ms + [n])[1..] == ms[1..] + [n];
      ListedSnoc(ms[1..], n);
    }
  }
}
