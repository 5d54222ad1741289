/**
 * The event contract between the phase machines and their listeners: a closed set
 * of event tags, the event record with its defaults, and the synchronous fan-out of
 * each event to every registered listener.
 */
module Events {
  import opened Wrappers

  /** The closed set of event tags. */
  datatype EventType = Header | Plan | Think | Turn | Score | Verdict

  /** The judge profile carried by a HEADER event (`model` is absent in the older runner). */
  datatype JudgeProfile = JudgeProfile(
    name: string,
    color: string,
    personality: string,
    judgingCriteria: string,
    model: Option<string>)

  /**
   * The metadata mapping of an event, by kind. `NoMeta` is the empty mapping; a key
   * that a producer may leave out is an `Option`.
   */
  datatype Metadata =
    | NoMeta
    | HeaderMeta(
        topic: string,
        premise: Option<string>,
        sides: map<string, string>,
        participants: seq<string>,
        colors: map<string, string>,
        personalities: map<string, string>,
        models: Option<map<string, string>>,
        judge: Option<JudgeProfile>)
    | ScoreMeta(target: string, score: Option<int>)
    | VerdictMeta(
        winner: Option<string>,
        scores: map<string, int>,
        premise: Option<string>,
        premiseUpheld: Option<bool>)

  /** One event; `speaker`, `content`, `color` and `metadata` have the record's defaults. */
  datatype DebateEvent = DebateEvent(
    kind: EventType,
    speaker: string := "",
    content: string := "",
    color: string := "white",
    metadata: Metadata := NoMeta)

  /** `metadata.get("sides", {})`. */
  function SidesKey(m: Metadata): map<string, string> {
    if m.HeaderMeta? then m.sides else map[]
  }

  /** `metadata.get("premise")`. */
  function PremiseKey(m: Metadata): Option<string> {
    match m
    case HeaderMeta(_, premise, _, _, _, _, _, _) => premise
    case VerdictMeta(_, _, premise, _) => premise
    case _ => None
  }

  /** `metadata.get("winner")`. */
  function WinnerKey(m: Metadata): Option<string> {
    if m.VerdictMeta? then m.winner else None
  }

  /** `metadata.get("scores", {})`. */
  function ScoresKey(m: Metadata): map<string, int> {
    if m.VerdictMeta? then m.scores else map[]
  }

  /** `metadata.get("premise_upheld")`. */
  function UpheldKey(m: Metadata): Option<bool> {
    if m.VerdictMeta? then m.premiseUpheld else None
  }

  /** The last event of the given kind, if any. */
  function LastOf(events: seq<DebateEvent>, kind: EventType): (r: Option<DebateEvent>)
    ensures r.Some? ==> r.value in events && r.value.kind == kind
    ensures r.None? <==> forall i :: 0 <= i < |events| ==> events[i].kind != kind
  {
    if events == [] then None
    else if events[|events| - 1].kind == kind then Some(events[|events| - 1])
    else
      var r := LastOf(events[..|events| - 1], kind);
      assert forall i :: 0 <= i < |events| - 1 ==> events[..|events| - 1][i] == events[i];
      r
  }

  /** The position of a tag in declaration order. */
  function Ordinal(t: EventType): (n: nat)
    ensures n < 6
  {
    match t
    case Header => 0
    case Plan => 1
    case Think => 2
    case Turn => 3
    case Score => 4
    case Verdict => 5
  }

  /** Every tag of the closed set, once each. */
  function AllEventTypes(): (ts: seq<EventType>)
    ensures |ts| == 6
    ensures forall i, j :: 0 <= i < j < |ts| ==> ts[i] != ts[j]
    ensures forall t: EventType :: ts[Ordinal(t)] == t
  {
    var ts := [Header, Plan, Think, Turn, Score, Verdict];
    ts
  }

  /** An event built from its tag alone carries the record's defaults. */
  function NewEvent(kind: EventType): (e: DebateEvent)
    ensures e.kind == kind
    ensures e.speaker == "" && e.content == ""
    ensures e.color == "white"
    ensures e.metadata == NoMeta
  {
    DebateEvent(kind)
  }

  /** The tags of a sequence of events, in order. */
  function Kinds(es: seq<DebateEvent>): (ks: seq<EventType>)
    ensures |ks| == |es|
    ensures forall i :: 0 <= i < |es| ==> ks[i] == es[i].kind
  {
    if es == [] then [] else [es[0].kind] + Kinds(es[1..])
  }

  lemma {:induction false} KindsAppend(xs: seq<DebateEvent>, ys: seq<DebateEvent>)
    ensures Kinds(xs + ys) == Kinds(xs) + Kinds(ys)
  {
    var l, r := Kinds(xs + ys), Kinds(xs) + Kinds(ys);
    assert |l| == |r|;
    forall i | 0 <= i < |l| ensures l[i] == r[i] {
      if i < |xs| { assert (xs + ys)[i] == xs[i]; } else { assert (xs + ys)[i] == ys[i - |xs|]; }
    }
  }

  /** One call of a listener: the listener's position in the output list and the event. */
  datatype Delivery = Delivery(output: nat, event: DebateEvent)

  /** One event handed to listeners `0 .. n-1`, in list order. */
  function FanOut(e: DebateEvent, n: nat): (ds: seq<Delivery>)
    ensures |ds| == n
  {
    if n == 0 then [] else FanOut(e, n - 1) + [Delivery(n - 1, e)]
  }

  /** Listener `k` is the `k`-th to receive the event. */
  lemma {:induction false} FanOutAt(e: DebateEvent, n: nat, k: nat)
    requires k < n
    ensures FanOut(e, n)[k] == Delivery(k, e)
  {
    if k < n - 1 {
      FanOutAt(e, n - 1, k);
    }
  }

  /** What `n` listeners receive from a sequence of emitted events. */
  function Broadcast(es: seq<DebateEvent>, n: nat): seq<Delivery> {
    if es == [] then [] else Broadcast(es[..|es| - 1], n) + FanOut(es[|es| - 1], n)
  }

  /**
   * Each event reaches each listener exactly once, in list order, and all of its
   * deliveries come before any delivery of the next event.
   */
  lemma {:induction false} BroadcastAt(es: seq<DebateEvent>, n: nat, e: nat, k: nat)
    requires e < |es| && k < n
    ensures |Broadcast(es, n)| == |es| * n
    ensures e * n + k < |es| * n
    ensures Broadcast(es, n)[e * n + k] == Delivery(k, es[e])
    decreases |es|
  {
    var init := es[..|es| - 1];
    BroadcastLength(init, n);
    MulSucc(|init|, n);
    if e < |es| - 1 {
      BroadcastAt(init, n, e, k);
    } else {
      FanOutAt(es[e], n, k);
    }
  }

  lemma {:induction false} BroadcastLength(es: seq<DebateEvent>, n: nat)
    ensures |Broadcast(es, n)| == |es| * n
    decreases |es|
  {
    if es != [] {
      BroadcastLength(es[..|es| - 1], n);
      MulSucc(|es| - 1, n);
    }
  }

  lemma MulSucc(a: nat, n: nat)
    ensures (a + 1) * n == a * n + n
  {
  }

  /** Broadcasting two runs of events one after the other is broadcasting them together. */
  lemma {:induction false} BroadcastConcat(xs: seq<DebateEvent>, ys: seq<DebateEvent>, n: nat)
    ensures Broadcast(xs + ys, n) == Broadcast(xs, n) + Broadcast(ys, n)
    decreases |ys|
  {
    if ys != [] {
      var init, last := ys[..|ys| - 1], ys[|ys| - 1];
      assert ys == init + [last];
      assert xs + ys == (xs + init) + [last];
      BroadcastAppend(xs + init, last, n);
      BroadcastAppend(init, last, n);
      BroadcastConcat(xs, init, n);
    } else {
      assert xs + ys == xs;
    }
  }

  lemma {:induction false} BroadcastAppend(es: seq<DebateEvent>, e: DebateEvent, n: nat)
    ensures Broadcast(es + [e], n) == Broadcast(es, n) + FanOut(e, n)
  {
    assert (es + [e])[..|es|] == es;
  }
}
