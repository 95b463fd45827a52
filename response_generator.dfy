/** ResponseGeneratorAgent.generateProposal after the provider call: the
    drafted text is handed on, or an empty draft raises "No text generated". */
module ResponseGenerator {
  import opened Types
  import opened Gateway
  import opened Logging

  const Agent := "WRITER-AGENT"

  /** A reply carrying non-empty text is a draft; anything else throws. */
  function DraftResult(reply: Reply<string>): (r: Outcome<string>)
    ensures r.Ok? <==> reply.Answer? && reply.value != ""
    ensures r.Ok? ==> r.value == reply.value
  {
    if reply.Answer? && reply.value != "" then Ok(reply.value) else Fail
  }

  function FailureReason(reply: Reply<string>): string {
    if reply.Threw? then reply.message else "No text generated"
  }

  /** Everything `generateProposal` logs. */
  function DraftLog(reply: Reply<string>): seq<LogEntry> {
    [LogEntry(Agent, "Drafting final proposal email...", Info)]
    + if DraftResult(reply).Ok? then [LogEntry(Agent, "Draft generated successfully.", Success)]
      else [LogEntry(Agent, "Drafting failed: " + FailureReason(reply), Error)]
  }

  method GenerateProposal(sink: LogSink, reply: Reply<string>) returns (r: Outcome<string>)
    modifies sink
    ensures r == DraftResult(reply)
    ensures sink.entries == old(sink.entries) + DraftLog(reply)
  {
    sink.Log(Agent, "Drafting final proposal email...", Info);
    if reply.Answer? && reply.value != "" {
      sink.Log(Agent, "Draft generated successfully.", Success);
      return Ok(reply.value);
    }
    sink.Log(Agent, "Drafting failed: " + FailureReason(reply), Error);
    return Fail;
  }

  /** Two lines, both the writer's; the second is an error exactly when the
      draft fails. */
  lemma DraftLogShape(reply: Reply<string>)
    ensures |DraftLog(reply)| == 2
    ensures forall e :: e in DraftLog(reply) ==> e.agent == Agent
    ensures DraftLog(reply)[1].kind == Error <==> DraftResult(reply).Fail?
  {
  }
}
