/** The App component's state and its two handlers: `handleRun`, which resets
    the results and runs identification, matching, pricing and drafting in
    order, and `handleSendEmail`, which addresses the proposal to the
    analysed contact. The provider replies, the clock and the host's number
    and date rendering are inputs (`Env`). */
module Orchestrator {
  import opened Types
  import opened Gateway
  import opened Logging
  import RI = RfpIdentification
  import PM = ProductMatching
  import PR = Pricing
  import RG = ResponseGenerator
  import opened Integrity

  datatype InputMode = TextMode | UrlMode

  /** What the outside world contributes to one run: the provider's reply to
      each stage's request, the current time, and the host's renderings. */
  datatype Env = Env(
    analyzeReply: string -> Reply<RfpAnalysis>,
    matchReply: seq<string> -> Reply<seq<PM.RawMatch>>,
    priceReply: seq<MatchedItem> -> Reply<PR.RawPricing>,
    draftReply: (RfpAnalysis, PricingResult) -> Reply<string>,
    today: int,
    formatDate: int -> string,
    formatAmount: real -> string)

  const SystemAgent := "SYSTEM"
  const AbortEntry := LogEntry(SystemAgent, "CRITICAL ERROR: Process aborted.", Error)

  /** The results and the log left by one run. */
  datatype RunState = RunState(
    analysis: Option<RfpAnalysis>,
    matches: Option<seq<MatchedItem>>,
    pricing: Option<PricingResult>,
    proposal: string,
    logs: seq<LogEntry>)

  /** Step 1: `scanUrl` in URL mode (it cannot fail), else `analyze`. */
  function Identify(mode: InputMode, url: string, text: string, env: Env): Outcome<RfpAnalysis> {
    if mode == UrlMode then Ok(RI.ScanResult(RI.Selected(RI.MockRfps, env.today), env.today, env.formatDate))
    else RI.AnalysisResult(env.analyzeReply(text))
  }

  function IdentifyLog(mode: InputMode, url: string, text: string, env: Env): seq<LogEntry> {
    if mode == UrlMode then RI.ScanLog(url, RI.MockRfps, env.today)
    else RI.AnalyzeLog(env.analyzeReply(text))
  }

  /** The run, stage by stage: each stage is fed the previous one's output,
      the first failure stops the run with one SYSTEM entry, and whatever was
      set before it stays set. */
  function Pipeline(mode: InputMode, url: string, text: string, env: Env): RunState {
    Run(Identify(mode, url, text, env), IdentifyLog(mode, url, text, env), env)
  }

  /** The run once identification has produced `id` and logged `log`. */
  function Run(id: Outcome<RfpAnalysis>, log: seq<LogEntry>, env: Env): RunState {
    match id
    case Fail => RunState(None, None, None, "", log + [AbortEntry])
    case Ok(a) =>
      var rest := FromAnalysis(a, env);
      rest.(logs := log + rest.logs)
  }

  /** The run once the analysis `a` is set: matching on its requirements. */
  function FromAnalysis(a: RfpAnalysis, env: Env): RunState {
    var reply := env.matchReply(a.productRequirements);
    var log := PM.MatchLog(reply);
    match PM.MatchResult(reply)
    case Fail => RunState(Some(a), None, None, "", log + [AbortEntry])
    case Ok(ms) =>
      var rest := FromMatches(a, ms, env);
      rest.(logs := log + rest.logs)
  }

  /** The run once the matches `ms` are set: pricing, which catches its own
      errors, then drafting. */
  function FromMatches(a: RfpAnalysis, ms: seq<MatchedItem>, env: Env): RunState {
    var pReply := env.priceReply(ms);
    var p := PR.Calculation(ms, pReply);
    var dReply := env.draftReply(a, p);
    var log := PR.PricingLog(ms, pReply, env.formatAmount) + RG.DraftLog(dReply);
    match RG.DraftResult(dReply)
    case Fail => RunState(Some(a), Some(ms), Some(p), "", log + [AbortEntry])
    case Ok(draft) => RunState(Some(a), Some(ms), Some(p), draft, log)
  }

  /** The `mailto:` that `handleSendEmail` opens, before URI encoding. */
  datatype Mail = Mail(to: string, subject: string, body: string)

  /** Nothing without an analysis; otherwise the proposal, addressed to the
      analysed contact under "Proposal for <client>". */
  function MailFor(analysis: Option<RfpAnalysis>, proposal: string): (r: Option<Mail>)
    ensures r.None? <==> analysis.None?
    ensures r.Some? ==> r.value.to == analysis.value.contactEmail && r.value.body == proposal
                        && r.value.subject == "Proposal for " + analysis.value.clientName
  {
    if analysis.None? then None
    else Some(Mail(analysis.value.contactEmail, "Proposal for " + analysis.value.clientName, proposal))
  }

  class App {
    const sink: LogSink
    var inputMode: InputMode
    var urlInput: string
    var inputText: string
    var isProcessing: bool
    var analysis: Option<RfpAnalysis>
    var matches: Option<seq<MatchedItem>>
    var pricing: Option<PricingResult>
    var proposal: string

    constructor (mode: InputMode, url: string, text: string)
      ensures fresh(sink) && sink.entries == []
      ensures inputMode == mode && urlInput == url && inputText == text
      ensures !isProcessing && analysis.None? && matches.None? && pricing.None? && proposal == ""
    {
      sink := new LogSink();
      inputMode, urlInput, inputText := mode, url, text;
      isProcessing := false;
      analysis, matches, pricing, proposal := None, None, None, "";
    }

    /** The catch block: one SYSTEM error entry. */
    method Abort()
      modifies sink
      ensures sink.entries == old(sink.entries) + [AbortEntry]
    {
      sink.Log(SystemAgent, "CRITICAL ERROR: Process aborted.", Error);
    }

    /** `handleRun`: the results and the log are those of `Pipeline` for the
        current input, whatever they were before, and processing has ended. */
    method HandleRun(env: Env)
      modifies this, sink
      ensures inputMode == old(inputMode) && urlInput == old(urlInput) && inputText == old(inputText)
      ensures !isProcessing
      ensures var s := Pipeline(inputMode, urlInput, inputText, env);
        analysis == s.analysis && matches == s.matches && pricing == s.pricing
        && proposal == s.proposal && sink.entries == s.logs
    {
      isProcessing := true;
      sink.Clear();
      analysis, matches, pricing, proposal := None, None, None, "";

      var rfpData := Identification(env);
      ghost var log := IdentifyLog(inputMode, urlInput, inputText, env);
      assert sink.entries == log;
      if rfpData.Fail? {
        Abort();
      } else {
        RunFromAnalysis(rfpData.value, env);
      }
      isProcessing := false;
    }

    /** Steps 2 to 4, once the analysis `a` is known. */
    method RunFromAnalysis(a: RfpAnalysis, env: Env)
      requires analysis.None? && matches.None? && pricing.None? && proposal == ""
      modifies this, sink
      ensures inputMode == old(inputMode) && urlInput == old(urlInput) && inputText == old(inputText)
      ensures var s := FromAnalysis(a, env);
        analysis == s.analysis && matches == s.matches && pricing == s.pricing
        && proposal == s.proposal && sink.entries == old(sink.entries) + s.logs
    {
      ghost var start := sink.entries;
      var reply := env.matchReply(a.productRequirements);
      analysis := Some(a);
      var matched := PM.Match(sink, reply);
      ghost var logged := PM.MatchLog(reply);
      if matched.Fail? {
        Abort();
        AppendAssoc(start, logged, [AbortEntry]);
      } else {
        RunFromMatches(a, matched.value, env);
        AppendAssoc(start, logged, FromMatches(a, matched.value, env).logs);
      }
    }

    /** Steps 3 and 4, once the matches `ms` are known. */
    method RunFromMatches(a: RfpAnalysis, ms: seq<MatchedItem>, env: Env)
      requires pricing.None? && proposal == ""
      modifies this, sink
      ensures inputMode == old(inputMode) && urlInput == old(urlInput) && inputText == old(inputText)
      ensures analysis == old(analysis)
      ensures var s := FromMatches(a, ms, env);
        matches == s.matches && pricing == s.pricing
        && proposal == s.proposal && sink.entries == old(sink.entries) + s.logs
    {
      matches := Some(ms);
      var pricingData := PR.Calculate(sink, ms, env.priceReply(ms), env.formatAmount);
      pricing := Some(pricingData);
      ghost var start := old(sink.entries);
      ghost var priceLog := PR.PricingLog(ms, env.priceReply(ms), env.formatAmount);
      ghost var draftLog := RG.DraftLog(env.draftReply(a, pricingData));
      var draft := RG.GenerateProposal(sink, env.draftReply(a, pricingData));
      AppendAssoc(start, priceLog, draftLog);
      if draft.Fail? {
        Abort();
        AppendAssoc(start, priceLog + draftLog, [AbortEntry]);
      } else {
        proposal := draft.value;
      }
    }

    /** Step 1 of `handleRun`: `scanUrl` in URL mode, else `analyze`. */
    method Identification(env: Env) returns (rfpData: Outcome<RfpAnalysis>)
      modifies sink
      ensures rfpData == Identify(inputMode, urlInput, inputText, env)
      ensures sink.entries == old(sink.entries) + IdentifyLog(inputMode, urlInput, inputText, env)
    {
      if inputMode == UrlMode {
        var scanned := RI.ScanUrl(sink, urlInput, env.today, env.formatDate);
        rfpData := Ok(scanned);
      } else {
        rfpData := RI.Analyze(sink, env.analyzeReply(inputText));
      }
    }

    /** `handleSendEmail`: does nothing without an analysis. */
    method HandleSendEmail() returns (mail: Option<Mail>)
      ensures mail == MailFor(analysis, proposal)
    {
      if analysis.None? {
        return None;
      }
      mail := Some(Mail(analysis.value.contactEmail, "Proposal for " + analysis.value.clientName, proposal));
    }

    /** The integrity index of the current matches. */
    function Index(): int
      reads this
    {
      IntegrityIndex(matches)
    }

    /** The send button is enabled exactly when the index is at least 70. */
    predicate CanSend()
      reads this
    {
      !SendBlocked(Index())
    }
  }

  // ---------------------------------------------------------------------------
  // Properties of a run
  // ---------------------------------------------------------------------------

  /** Which later stage, if any, stops a run on the analysis `a`: matching
      throws on anything but an answer, drafting on an empty draft. */
  predicate MatchingFails(a: RfpAnalysis, env: Env) {
    !env.matchReply(a.productRequirements).Answer?
  }

  predicate DraftingFails(a: RfpAnalysis, env: Env) {
    var reply := env.matchReply(a.productRequirements);
    reply.Answer?
    && var ms := PM.MatchedItems(reply.value);
       var p := PR.Calculation(ms, env.priceReply(ms));
       !RG.DraftResult(env.draftReply(a, p)).Ok?
  }

  predicate Aborted(id: Outcome<RfpAnalysis>, env: Env) {
    id.Fail? || MatchingFails(id.value, env) || DraftingFails(id.value, env)
  }

  /** The entries of the SYSTEM agent, in order. */
  function SystemEntries(log: seq<LogEntry>): seq<LogEntry>
    decreases |log|
  {
    if |log| == 0 then []
    else SystemEntries(log[..|log| - 1]) + (if log[|log| - 1].agent == SystemAgent then [log[|log| - 1]] else [])
  }

  lemma {:induction false} SystemEntriesAppend(a: seq<LogEntry>, b: seq<LogEntry>)
    ensures SystemEntries(a + b) == SystemEntries(a) + SystemEntries(b)
    decreases |b|
  {
    if |b| > 0 {
      SystemEntriesAppend(a, b[..|b| - 1]);
      assert (a + b)[..|a + b| - 1] == a + b[..|b| - 1];
    } else {
      assert a + b == a;
    }
  }

  lemma {:induction false} NoSystemEntries(log: seq<LogEntry>, agent: string)
    requires agent != SystemAgent
    requires forall e :: e in log ==> e.agent == agent
    ensures SystemEntries(log) == []
    decreases |log|
  {
    if |log| > 0 {
      assert log[|log| - 1] in log;
      assert forall e :: e in log[..|log| - 1] ==> e in log;
      NoSystemEntries(log[..|log| - 1], agent);
    }
  }

  /** Identification logs no SYSTEM line. */
  lemma StageLogsHaveNoSystemEntries(mode: InputMode, url: string, text: string, env: Env)
    ensures SystemEntries(IdentifyLog(mode, url, text, env)) == []
  {
    if mode == UrlMode {
      RI.ScanLogAgents(url, RI.MockRfps, env.today);
      NoSystemEntries(RI.ScanLog(url, RI.MockRfps, env.today), RI.Agent);
    } else {
      RI.AnalyzeOutcome(env.analyzeReply(text));
      NoSystemEntries(RI.AnalyzeLog(env.analyzeReply(text)), RI.Agent);
    }
  }

  /** The abort line is itself a SYSTEM line. */
  lemma AbortEntryIsSystem()
    ensures SystemEntries([AbortEntry]) == [AbortEntry]
  {
    assert [AbortEntry][..0] == [];
  }

  /** After the matches are known, the run ends with one SYSTEM line
      exactly when no proposal was drafted. */
  lemma AbortAfterMatches(a: RfpAnalysis, ms: seq<MatchedItem>, env: Env)
    ensures var s := FromMatches(a, ms, env);
      SystemEntries(s.logs) == (if s.proposal == "" then [AbortEntry] else [])
      && (s.proposal == "" ==> |s.logs| > 0 && s.logs[|s.logs| - 1] == AbortEntry)
  {
    AbortEntryIsSystem();
    var pReply := env.priceReply(ms);
    var pLog := PR.PricingLog(ms, pReply, env.formatAmount);
    var dLog := RG.DraftLog(env.draftReply(a, PR.Calculation(ms, pReply)));
    PR.PricingLogShape(ms, pReply, env.formatAmount);
    NoSystemEntries(pLog, PR.Agent);
    RG.DraftLogShape(env.draftReply(a, PR.Calculation(ms, pReply)));
    NoSystemEntries(dLog, RG.Agent);
    SystemEntriesAppend(pLog, dLog);
    SystemEntriesAppend(pLog + dLog, [AbortEntry]);
  }

  /** After the analysis is known, the same holds. */
  lemma AbortAfterAnalysis(a: RfpAnalysis, env: Env)
    ensures var s := FromAnalysis(a, env);
      SystemEntries(s.logs) == (if s.proposal == "" then [AbortEntry] else [])
      && (s.proposal == "" ==> |s.logs| > 0 && s.logs[|s.logs| - 1] == AbortEntry)
  {
    AbortEntryIsSystem();
    var reply := env.matchReply(a.productRequirements);
    var log := PM.MatchLog(reply);
    PM.MatchLogShape(reply);
    NoSystemEntries(log, PM.Agent);
    if PM.MatchResult(reply).Fail? {
      SystemEntriesAppend(log, [AbortEntry]);
    } else {
      var ms := PM.MatchResult(reply).value;
      AbortAfterMatches(a, ms, env);
      SystemEntriesAppend(log, FromMatches(a, ms, env).logs);
    }
  }

  /** A run logs exactly one SYSTEM entry, the abort line and the last line
      of the log, when some stage throws, and none otherwise. */
  lemma AbortLoggedOnce(id: Outcome<RfpAnalysis>, log: seq<LogEntry>, env: Env)
    requires SystemEntries(log) == []
    ensures var s := Run(id, log, env);
      SystemEntries(s.logs) == (if Aborted(id, env) then [AbortEntry] else [])
      && (Aborted(id, env) ==> s.logs[|s.logs| - 1] == AbortEntry)
  {
    AbortEntryIsSystem();
    NoProposalIffAborted(id, log, env);
    match id
    case Fail =>
      SystemEntriesAppend(log, [AbortEntry]);
    case Ok(a) =>
      AbortAfterAnalysis(a, env);
      SystemEntriesAppend(log, FromAnalysis(a, env).logs);
  }

  /** So the whole run, whatever the input mode, logs the abort line exactly
      once when some stage throws, and never otherwise. */
  lemma PipelineAbortsOnce(mode: InputMode, url: string, text: string, env: Env)
    ensures var s := Pipeline(mode, url, text, env);
      SystemEntries(s.logs) == (if Aborted(Identify(mode, url, text, env), env) then [AbortEntry] else [])
  {
    StageLogsHaveNoSystemEntries(mode, url, text, env);
    AbortLoggedOnce(Identify(mode, url, text, env), IdentifyLog(mode, url, text, env), env);
  }

  /** The run ends without a proposal exactly when some stage throws. */
  lemma NoProposalIffAborted(id: Outcome<RfpAnalysis>, log: seq<LogEntry>, env: Env)
    ensures Run(id, log, env).proposal == "" <==> Aborted(id, env)
  {
    if id.Ok? {
      ProposalAfterAnalysis(id.value, env);
    }
  }

  lemma ProposalAfterAnalysis(a: RfpAnalysis, env: Env)
    ensures var reply := env.matchReply(a.productRequirements);
      FromAnalysis(a, env).proposal != "" <==>
        reply.Answer? && FromMatches(a, PM.MatchedItems(reply.value), env).proposal != ""
  {
  }

  /** Later results are set only when earlier ones are; pricing is set
      whenever matching succeeded, since it never throws; and a proposal is
      only ever a non-empty draft. */
  lemma ResultsAreCumulative(id: Outcome<RfpAnalysis>, log: seq<LogEntry>, env: Env)
    ensures var s := Run(id, log, env);
      (s.matches.Some? ==> s.analysis.Some?)
      && (s.pricing.Some? <==> s.matches.Some?)
      && (s.proposal != "" ==> s.pricing.Some?)
      && (s.analysis.Some? <==> id.Ok?)
      && (s.matches.Some? <==> id.Ok? && !MatchingFails(id.value, env))
      && (s.proposal != "" <==> !Aborted(id, env))
  {
    NoProposalIffAborted(id, log, env);
    if id.Ok? {
      var a := id.value;
      var reply := env.matchReply(a.productRequirements);
      if reply.Answer? {
        var rest := FromMatches(a, PM.MatchedItems(reply.value), env);
        assert rest.matches.Some? && rest.pricing.Some?;
        assert FromAnalysis(a, env).matches == rest.matches;
      }
    }
  }

  /** Each stage is fed the previous stage's output: matching the analysed
      requirements, pricing the matched items, drafting the analysis and the
      pricing. */
  lemma StagesFeedForward(id: Outcome<RfpAnalysis>, log: seq<LogEntry>, env: Env)
    ensures var s := Run(id, log, env);
      (s.analysis.Some? ==> id == Ok(s.analysis.value))
      && (s.matches.Some? ==> s.matches == Some(PM.MatchedItems(env.matchReply(s.analysis.value.productRequirements).value)))
      && (s.pricing.Some? ==> s.pricing == Some(PR.Calculation(s.matches.value, env.priceReply(s.matches.value))))
      && (s.proposal != "" ==> s.proposal == env.draftReply(s.analysis.value, s.pricing.value).value)
  {
    if id.Ok? {
      var a := id.value;
      var reply := env.matchReply(a.productRequirements);
      if reply.Answer? {
        var ms := PM.MatchedItems(reply.value);
        var rest := FromMatches(a, ms, env);
        assert FromAnalysis(a, env) == rest.(logs := PM.MatchLog(reply) + rest.logs);
      }
    }
  }

  /** The log is the stages' own logs in order: identification's comes
      first, and something always follows it. */
  lemma IdentificationLogsFirst(id: Outcome<RfpAnalysis>, log: seq<LogEntry>, env: Env)
    ensures var s := Run(id, log, env);
      |log| < |s.logs| && s.logs[..|log|] == log
  {
    var s := Run(id, log, env);
    if id.Ok? {
      PM.MatchLogShape(env.matchReply(id.value.productRequirements));
    }
    assert s.logs == log + s.logs[|log|..];
  }

  /** In URL mode identification cannot fail, and the run works on the
      RFP-WEB-101 tender. */
  lemma UrlModeAnalysesFirstTender(url: string, text: string, env: Env)
    ensures Identify(UrlMode, url, text, env).Ok?
    ensures Identify(UrlMode, url, text, env).value.clientName == "Nexus Health Systems"
  {
    RI.AlwaysSelectsFirst(env.today, env.formatDate);
  }
}
