/**
 * The result row the batch runner records for each debate it runs. Every key may be
 * missing from a row, so every field except the score mapping is optional; a missing
 * score mapping reads as the empty one.
 */
module RunRow {
  import opened Wrappers

  datatype Row = Row(
    runNum: Option<int>,
    agentFor: Option<string>,
    modelFor: Option<string>,
    agentAgainst: Option<string>,
    modelAgainst: Option<string>,
    judge: Option<string>,
    modelJudge: Option<string>,
    firstSpeaker: Option<string>,
    premise: Option<string>,
    premiseUpheld: Option<bool>,
    winner: Option<string>,
    scores: map<string, int>,
    transcriptFilename: Option<string>)
}
