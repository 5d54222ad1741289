/**
 * What both phase machines derive from their participants before the first event:
 * the colour of each speaker, the side assignment, and the rule that turns a
 * verdict's winner into "premise upheld", "premise rejected" or undecided.
 */
module Roles {
  import opened Wrappers

  /** Python truthiness of an optional string: present and not empty. */
  predicate Truthy(o: Option<string>) {
    o.Some? && o.value != ""
  }

  /**
   * A participant as the phase machines see it: its configured identity. What it
   * says is given separately, by the oracle of the phase machine.
   */
  datatype Persona = Persona(
    name: string,
    model: string,
    color: string,
    personality: string,
    judgingCriteria: string,
    side: Option<string>)

  /** `color_map.get(speaker, "white")`. */
  function ColorOf(colorMap: map<string, string>, speaker: string): string {
    if speaker in colorMap then colorMap[speaker] else "white"
  }

  /** `{a.name: a.color for a in [a, b]}`, then the judge's colour on top. */
  function ColorMap(a: Persona, b: Persona, judge: Option<Persona>): map<string, string> {
    var debaters := map[a.name := a.color][b.name := b.color];
    if judge.Some? then debaters[judge.value.name := judge.value.color] else debaters
  }

  /**
   * The colour map holds the debaters and the judge; a later entry overwrites an
   * earlier one of the same name, and a name that belongs to nobody is "white".
   */
  lemma ColorMapRule(a: Persona, b: Persona, judge: Option<Persona>)
    ensures ColorMap(a, b, judge).Keys == {a.name, b.name} + (if judge.Some? then {judge.value.name} else {})
    ensures forall x :: ColorOf(ColorMap(a, b, judge), x) == (
              if judge.Some? && x == judge.value.name then judge.value.color
              else if x == b.name then b.color
              else if x == a.name then a.color
              else "white")
  {
  }

  /** `{a.name: a.side for a in [a, b] if a.side}`. */
  function SidesOf(a: Persona, b: Persona): map<string, string> {
    var first := if Truthy(a.side) then map[a.name := a.side.value] else map[];
    if Truthy(b.side) then first[b.name := b.side.value] else first
  }

  /**
   * Only debaters with a non-empty side appear in the side map, every side in it is
   * non-empty, and the second debater's entry wins a name clash.
   */
  lemma SidesRule(a: Persona, b: Persona)
    ensures forall x :: x in SidesOf(a, b) <==> (x == a.name && Truthy(a.side)) || (x == b.name && Truthy(b.side))
    ensures forall x :: x in SidesOf(a, b) ==> SidesOf(a, b)[x] != ""
    ensures Truthy(b.side) ==> SidesOf(a, b)[b.name] == b.side.value
    ensures Truthy(a.side) && (a.name != b.name || !Truthy(b.side)) ==> SidesOf(a, b)[a.name] == a.side.value
  {
  }

  /**
   * Whether the winner's side decides the premise: undecided (None) unless the
   * premise, the winner and the side map are all non-empty and the winner has a
   * non-empty side; otherwise upheld exactly when that side is "for".
   */
  function PremiseUpheld(premise: Option<string>, winner: Option<string>, sides: map<string, string>): (r: Option<bool>)
    ensures r.Some? <==> Truthy(premise) && Truthy(winner) && winner.value in sides && sides[winner.value] != ""
    ensures r.Some? ==> r.value == (sides[winner.value] == "for")
  {
    if Truthy(premise) && Truthy(winner) && |sides| > 0 then
      var winnerSide := if winner.value in sides then sides[winner.value] else "";
      if winnerSide != "" then Some(winnerSide == "for") else None
    else None
  }

  /** The three outcomes of a decided or undecided debate. */
  lemma PremiseUpheldCases(premise: string, winner: string, sides: map<string, string>)
    requires premise != "" && winner != ""
    ensures winner in sides && sides[winner] == "for" ==> PremiseUpheld(Some(premise), Some(winner), sides) == Some(true)
    ensures winner in sides && sides[winner] == "against" ==> PremiseUpheld(Some(premise), Some(winner), sides) == Some(false)
    ensures PremiseUpheld(None, Some(winner), sides) == None
    ensures PremiseUpheld(Some(premise), None, sides) == None
    ensures winner !in sides ==> PremiseUpheld(Some(premise), Some(winner), sides) == None
  {
  }
}
