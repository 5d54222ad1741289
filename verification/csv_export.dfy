/**
 * The CSV summary of a batch: a fixed list of fifteen columns, the flattening of one
 * result row into a record over those columns, and the exporter that keeps every row
 * and rewrites the whole table after each one.
 */
module CsvExport {
  import opened Wrappers
  import opened RunRow

  /** A cell: text, or the run number / a score as written by the CSV writer. */
  datatype Cell = Text(text: string) | Number(number: int)

  /** The column names, in column order. */
  const Fields: seq<string> := [
    "run_num", "agent_for", "model_for", "agent_against", "model_against", "judge",
    "model_judge", "first_speaker", "premise", "premise_upheld", "winner", "winner_side",
    "score_for", "score_against", "transcript_filename"]

  /** Fifteen columns, no two with the same name. */
  lemma FieldsDistinct()
    ensures |Fields| == 15
    ensures forall i, j :: 0 <= i < j < |Fields| ==> Fields[i] != Fields[j]
  {
  }

  /** `row.get(key) or ""`. */
  function TextOf(o: Option<string>): (c: Cell)
    ensures c.Text?
    ensures o.Some? ==> c.text == o.value
    ensures o.None? ==> c.text == ""
  {
    Text(o.GetOr(""))
  }

  /** Which side won: "for" when the winner is the for-debater, else "against" when it is the other one. */
  function WinnerSide(row: Row): string {
    var winner := row.winner.GetOr("");
    if winner == row.agentFor.GetOr("") then "for"
    else if winner == row.agentAgainst.GetOr("") then "against"
    else ""
  }

  /** `premise_upheld` as written: empty when unknown, else TRUE or FALSE. */
  function UpheldCell(upheld: Option<bool>): (c: Cell)
    ensures c.Text? && (c.text == "" <==> upheld.None?)
    ensures c.text == "TRUE" <==> upheld == Some(true)
    ensures c.text == "FALSE" <==> upheld == Some(false)
  {
    Text(if upheld.None? then "" else if upheld.value then "TRUE" else "FALSE")
  }

  /** `scores.get(name, "")`. */
  function ScoreCell(scores: map<string, int>, name: string): (c: Cell)
    ensures c.Number? <==> name in scores
    ensures c.Number? ==> c.number == scores[name]
    ensures c.Text? ==> c.text == ""
  {
    if name in scores then Number(scores[name]) else Text("")
  }

  /** One row as a record over the fifteen columns. */
  function Flatten(row: Row): (record: map<string, Cell>)
    ensures record.Keys == set f | f in Fields
  {
    var agentFor := row.agentFor.GetOr("");
    var agentAgainst := row.agentAgainst.GetOr("");
    map[
      "run_num" := if row.runNum.Some? then Number(row.runNum.value) else Text(""),
      "agent_for" := Text(agentFor),
      "model_for" := TextOf(row.modelFor),
      "agent_against" := Text(agentAgainst),
      "model_against" := TextOf(row.modelAgainst),
      "judge" := TextOf(row.judge),
      "model_judge" := TextOf(row.modelJudge),
      "first_speaker" := TextOf(row.firstSpeaker),
      "premise" := TextOf(row.premise),
      "premise_upheld" := UpheldCell(row.premiseUpheld),
      "winner" := TextOf(row.winner),
      "winner_side" := Text(WinnerSide(row)),
      "score_for" := ScoreCell(row.scores, agentFor),
      "score_against" := ScoreCell(row.scores, agentAgainst),
      "transcript_filename" := TextOf(row.transcriptFilename)]
  }

  /**
   * The winner side is "for" exactly when the winner's name (empty if missing) is
   * the for-debater's, which takes priority over the against-debater's; "against"
   * exactly when it is only the against-debater's; empty otherwise.
   */
  lemma WinnerSideRule(row: Row)
    ensures Flatten(row)["winner_side"].Text?
    ensures var side := Flatten(row)["winner_side"].text;
      (side == "for" || side == "against" || side == "") &&
      (side == "for" <==> row.winner.GetOr("") == row.agentFor.GetOr("")) &&
      (side == "" <==> row.winner.GetOr("") != row.agentFor.GetOr("") &&
                       row.winner.GetOr("") != row.agentAgainst.GetOr(""))
  {
  }

  /** A row with neither a winner nor a for-debater is counted as won by the "for" side. */
  lemma MissingWinnerQuirk(row: Row)
    requires row.winner.None? && row.agentFor.None?
    ensures Flatten(row)["winner_side"] == Text("for")
  {
  }

  /**
   * The run number column holds the number, or is empty when it is missing; the
   * first speaker and the transcript name hold the row's values, or are empty.
   */
  lemma FlattenRun(row: Row)
    ensures Flatten(row)["run_num"] == (if row.runNum.Some? then Number(row.runNum.value) else Text(""))
    ensures Flatten(row)["first_speaker"] == Text(row.firstSpeaker.GetOr(""))
    ensures Flatten(row)["transcript_filename"] == Text(row.transcriptFilename.GetOr(""))
  {
  }

  /** The debater columns hold the row's names, or are empty when missing. */
  lemma FlattenCells(row: Row)
    ensures Flatten(row)["agent_for"] == Text(row.agentFor.GetOr(""))
    ensures Flatten(row)["agent_against"] == Text(row.agentAgainst.GetOr(""))
  {
  }

  /** The debaters' model columns hold the row's values, or are empty when missing. */
  lemma FlattenModels(row: Row)
    ensures Flatten(row)["model_for"] == Text(row.modelFor.GetOr(""))
    ensures Flatten(row)["model_against"] == Text(row.modelAgainst.GetOr(""))
  {
  }

  /** The judge columns hold the row's values, or are empty when missing. */
  lemma FlattenJudge(row: Row)
    ensures Flatten(row)["judge"] == Text(row.judge.GetOr(""))
    ensures Flatten(row)["model_judge"] == Text(row.modelJudge.GetOr(""))
  {
  }

  /**
   * The winner and premise columns hold the row's values or are empty;
   * `premise_upheld` reads TRUE, FALSE or empty.
   */
  lemma FlattenOutcome(row: Row)
    ensures Flatten(row)["winner"] == Text(row.winner.GetOr(""))
    ensures Flatten(row)["premise"] == Text(row.premise.GetOr(""))
    ensures Flatten(row)["premise_upheld"] == Text(
      if row.premiseUpheld == Some(true) then "TRUE"
      else if row.premiseUpheld == Some(false) then "FALSE" else "")
  {
  }

  /** The score columns hold the debaters' scores when the mapping has them, else are empty. */
  lemma FlattenScores(row: Row)
    ensures var f := row.agentFor.GetOr("");
      Flatten(row)["score_for"] == (if f in row.scores then Number(row.scores[f]) else Text(""))
    ensures var a := row.agentAgainst.GetOr("");
      Flatten(row)["score_against"] == (if a in row.scores then Number(row.scores[a]) else Text(""))
  {
  }

  /** The whole table: one record per row, in order. */
  predicate IsTable(rows: seq<Row>, written: seq<map<string, Cell>>) {
    |written| == |rows| && forall i :: 0 <= i < |rows| ==> written[i] == Flatten(rows[i])
  }

  class SummaryCsv {
    /** The rows added so far. */
    var rows: seq<Row>
    /** The records of the file as last rewritten (the header row is `Fields`). */
    var written: seq<map<string, Cell>>

    /** The file path is not modelled: the table is kept as `written`. */
    constructor ()
      ensures rows == [] && written == []
    {
      rows := [];
      written := [];
    }

    /** Keeps the row and rewrites the table. */
    method AddRow(row: Row)
      modifies this
      ensures rows == old(rows) + [row]
      ensures IsTable(rows, written)
    {
      rows := rows + [row];
      Flush();
    }

    /** Nothing to do: the table is already current. */
    method Finalize()
      ensures unchanged(this)
    {
    }

    /** Rewrites the table from every row kept. */
    method Flush()
      modifies this
      ensures rows == old(rows)
      ensures IsTable(rows, written)
    {
      var out: seq<map<string, Cell>> := [];
      for i := 0 to |rows|
        invariant |out| == i
        invariant forall k :: 0 <= k < i ==> out[k] == Flatten(rows[k])
      {
        out := out + [Flatten(rows[i])];
      }
      written := out;
    }
  }
}
