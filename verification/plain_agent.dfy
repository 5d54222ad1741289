/**
 * The participant of the older conversation runner: a name, a model, a colour and
 * a conversation history whose first entry is the system directive. Each exchange
 * is given the reply the generation backend sends.
 */
module PlainAgent {
  import opened Wrappers
  import opened PyText
  import opened ChatLog

  /** The configuration keys the agent reads; an absent optional key is `None`. */
  datatype AgentConfig = AgentConfig(
    name: string,
    model: string,
    color: Option<string>,
    personality: Option<string>,
    position: Option<string>,
    instructions: Option<string>)

  /** The system directive: personality, position and instructions. */
  function DirectiveOf(c: AgentConfig): (d: string)
    ensures Stripped(d)
    ensures d == [] <==> AllSpace(c.personality.GetOr("")) && AllSpace(c.position.GetOr("")) &&
                         AllSpace(c.instructions.GetOr(""))
  {
    var fields := [c.personality.GetOr(""), c.position.GetOr(""), c.instructions.GetOr("")];
    DirectiveShape(fields);
    assert (forall i :: 0 <= i < |fields| ==> AllSpace(fields[i])) <==>
           AllSpace(fields[0]) && AllSpace(fields[1]) && AllSpace(fields[2]);
    SystemDirective(fields)
  }

  /** With only a position configured, the directive is that position, stripped. */
  lemma PositionOnly(c: AgentConfig)
    requires c.personality.None? && c.instructions.None? && !AllSpace(c.position.GetOr(""))
    ensures DirectiveOf(c) == Strip(c.position.value)
  {
    DirectiveOfOne([c.personality.GetOr(""), c.position.GetOr(""), c.instructions.GetOr("")], 1);
  }

  /**
   * The directive joins, with blank lines, what is kept of personality, position
   * and instructions, in that order (`KeptSingle` says what is kept of one field).
   */
  lemma DirectiveOrder(c: AgentConfig)
    ensures DirectiveOf(c) == Join("\n\n", Kept([c.personality.GetOr("")]) + Kept([c.position.GetOr("")]) +
                                          Kept([c.instructions.GetOr("")]))
  {
    var p, q, t := c.personality.GetOr(""), c.position.GetOr(""), c.instructions.GetOr("");
    KeptThree(p, q, t);
  }

  /** A personality and a position alone: the personality comes first, then a blank line, then the position. */
  lemma PersonalityThenPosition(c: AgentConfig)
    requires c.instructions.None?
    requires !AllSpace(c.personality.GetOr("")) && !AllSpace(c.position.GetOr(""))
    ensures DirectiveOf(c) == Strip(c.personality.value) + "\n\n" + Strip(c.position.value)
  {
    DirectiveOfTwo([c.personality.GetOr(""), c.position.GetOr(""), c.instructions.GetOr("")], 0, 1);
  }

  class Agent {
    const name: string
    const model: string
    const color: string
    var history: seq<Entry<string>>

    ghost predicate Valid()
      reads this
    {
      WellFormed(history)
    }

    /** Reads the configuration; the history is the system directive alone. */
    constructor (config: AgentConfig)
      ensures Valid()
      ensures name == config.name && model == config.model
      ensures color == config.color.GetOr("white")
      ensures history == [Entry(System, DirectiveOf(config))]
    {
      name := config.name;
      model := config.model;
      color := config.color.GetOr("white");
      history := [Entry(System, DirectiveOf(config))];
    }

    /** One exchange: the message, then the backend's reply, which is returned. */
    method Chat(message: string, reply: string) returns (answer: string)
      requires Valid()
      modifies this
      ensures Valid()
      ensures answer == reply
      ensures history == old(history) + [Entry(User, message), Entry(Assistant, reply)]
    {
      history := history + [Entry(User, message)];
      answer := reply;
      history := history + [Entry(Assistant, answer)];
    }

    /** Forgets every exchange and keeps the system entry. */
    method Reset()
      requires Valid()
      modifies this
      ensures Valid()
      ensures history == Restart(old(history))
    {
      RestartRule(history);
      history := [history[0]];
    }
  }
}
