/**
 * The result collector: a listener that keeps what the HEADER and VERDICT events of
 * a debate say about its outcome, for the batch runner to read afterwards.
 */
module Collector {
  import opened Wrappers
  import opened Events

  /** The five attributes of a collector, as a value. */
  datatype Collected = Collected(
    winner: Option<string>,
    scores: map<string, int>,
    premise: Option<string>,
    premiseUpheld: Option<bool>,
    sides: map<string, string>)

  /** What a fresh collector holds. */
  const Initial := Collected(None, map[], None, None, map[])

  /** One event's effect: HEADER sets sides and premise, VERDICT sets the outcome. */
  function Step(c: Collected, e: DebateEvent): Collected {
    match e.kind
    case Header => c.(sides := SidesKey(e.metadata), premise := PremiseKey(e.metadata))
    case Verdict =>
      c.(winner := WinnerKey(e.metadata), scores := ScoresKey(e.metadata),
         premiseUpheld := UpheldKey(e.metadata))
    case _ => c
  }

  /** A fresh collector after hearing `events` in order. */
  function Collect(events: seq<DebateEvent>): Collected {
    if events == [] then Initial
    else Step(Collect(events[..|events| - 1]), events[|events| - 1])
  }

  /**
   * Each attribute is read from the last event that sets it: sides and premise from
   * the last HEADER, the outcome from the last VERDICT, and the initial value when
   * no such event came. Events of other kinds leave no trace.
   */
  lemma {:induction false} LastEventWins(events: seq<DebateEvent>)
    ensures var c := Collect(events);
      match LastOf(events, Header)
      case None => c.sides == map[] && c.premise == None
      case Some(h) => c.sides == SidesKey(h.metadata) && c.premise == PremiseKey(h.metadata)
    ensures var c := Collect(events);
      match LastOf(events, Verdict)
      case None => c.winner == None && c.scores == map[] && c.premiseUpheld == None
      case Some(v) =>
        c.winner == WinnerKey(v.metadata) && c.scores == ScoresKey(v.metadata) &&
        c.premiseUpheld == UpheldKey(v.metadata)
  {
    if events != [] {
      LastEventWins(events[..|events| - 1]);
    }
  }

  class ResultCollector {
    var winner: Option<string>
    var scores: map<string, int>
    var premise: Option<string>
    var premiseUpheld: Option<bool>
    var sides: map<string, string>

    function State(): Collected
      reads this
    {
      Collected(winner, scores, premise, premiseUpheld, sides)
    }

    constructor ()
      ensures State() == Initial
    {
      winner := None;
      scores := map[];
      premise := None;
      premiseUpheld := None;
      sides := map[];
    }

    /** Hears one event. */
    method Call(e: DebateEvent)
      modifies this
      ensures State() == Step(old(State()), e)
    {
      if e.kind == Header {
        sides := SidesKey(e.metadata);
        premise := PremiseKey(e.metadata);
      } else if e.kind == Verdict {
        winner := WinnerKey(e.metadata);
        scores := ScoresKey(e.metadata);
        premiseUpheld := UpheldKey(e.metadata);
      }
    }
  }
}
