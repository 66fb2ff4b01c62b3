// The canonical job states of the execution-provider family and the Grid
// Engine provider's table from native `qstat`-style tokens to them.
module JobStates {

  /** The canonical states a provider reports for a job. */
  datatype JobState = Pending | Running | Cancelled | Completed | Failed | Timeout

  /** The provider's `translate_table`: native status token to canonical state. */
  const TRANSLATE_TABLE: map<string, JobState> :=
    map[
      "qw" := Pending,
      "r" := Running,
      "terminated" := Completed,
      "shutting-down" := Completed,
      "stopping" := Completed,
      "stopped" := Completed
    ]

  /** The tokens the table sends to COMPLETED. */
  const COMPLETED_TOKENS: set<string> := {"terminated", "shutting-down", "stopping", "stopped"}

  /** `translate_table.get(token, default)`: the state the table gives the
      token, or `default` for a token it does not list. The waiting token is
      PENDING, the running token RUNNING, the four shutdown tokens COMPLETED,
      and no listed token yields CANCELLED, FAILED or TIMEOUT. */
  function Translate(token: string, default: JobState): (r: JobState)
    ensures token == "qw" ==> r == Pending
    ensures token == "r" ==> r == Running
    ensures token in COMPLETED_TOKENS ==> r == Completed
    ensures token != "qw" && token != "r" && token !in COMPLETED_TOKENS ==> r == default
    ensures r in {Cancelled, Failed, Timeout} ==> r == default
  {
    if token in TRANSLATE_TABLE then TRANSLATE_TABLE[token] else default
  }

  /** The table lists exactly six tokens, and a token reaches COMPLETED if
      and only if it is one of the four shutdown tokens. */
  lemma TranslateTableVocabulary()
    ensures TRANSLATE_TABLE.Keys == {"qw", "r"} + COMPLETED_TOKENS
    ensures forall t :: t in TRANSLATE_TABLE ==> TRANSLATE_TABLE[t] in {Pending, Running, Completed}
    ensures forall t :: t in TRANSLATE_TABLE && TRANSLATE_TABLE[t] == Completed <==> t in COMPLETED_TOKENS
  {
  }
}
