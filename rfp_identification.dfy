/** RFPIdentificationAgent: `analyze` (the provider extracts an RfpAnalysis
    from free text; the code fills in a missing contact e-mail) and `scanUrl`
    (a fixed list of mock tenders screened by the 90-day deadline rule).
    Times are integers in milliseconds; `today` and the date rendering
    (`toDateString`) are parameters. */
module RfpIdentification {
  import opened Types
  import opened Text
  import opened Gateway
  import opened Logging

  const Agent := "RFP-ID-AGENT"
  const FallbackEmail := "procurement@client.com"
  const PortalEmail := "procurement@nexushealth.com"
  const PreferredId := "RFP-WEB-101"
  const DayMs := 1000 * 60 * 60 * 24
  const MaxDays := 90

  // ---------------------------------------------------------------------------
  // analyze
  // ---------------------------------------------------------------------------

  /** The in-place fallback: an empty (or missing) contact e-mail becomes
      procurement@client.com; every other field is left alone. */
  function WithContactFallback(data: RfpAnalysis): (r: RfpAnalysis)
    ensures r.contactEmail != ""
    ensures data.contactEmail != "" ==> r == data
    ensures data.contactEmail == "" ==> r.contactEmail == FallbackEmail
    ensures r.(contactEmail := data.contactEmail) == data
  {
    if data.contactEmail == "" then data.(contactEmail := FallbackEmail) else data
  }

  function AnalysisResult(reply: Reply<RfpAnalysis>): Outcome<RfpAnalysis> {
    match reply
    case Answer(data) => Ok(WithContactFallback(data))
    case _ => Fail
  }

  /** Everything `analyze` logs. */
  function AnalyzeLog(reply: Reply<RfpAnalysis>): seq<LogEntry> {
    [LogEntry(Agent, "Initializing analysis sequence...", Info),
     LogEntry(Agent, "Sending payload to Gemini model...", Info)]
    + match reply
      case Answer(data) =>
        [LogEntry(Agent, "Identified Client: " + data.clientName, Success),
         LogEntry(Agent, "Extracted " + IntToString(|data.productRequirements|) + " requirements.", Info)]
      case NoText => [LogEntry(Agent, "Analysis failed: Empty response from AI", Error)]
      case Threw(message) => [LogEntry(Agent, "Analysis failed: " + message, Error)]
  }

  /** RFPIdentificationAgent.analyze after the provider call; `Fail` is the
      rethrown error. */
  method Analyze(sink: LogSink, reply: Reply<RfpAnalysis>) returns (r: Outcome<RfpAnalysis>)
    modifies sink
    ensures r == AnalysisResult(reply)
    ensures sink.entries == old(sink.entries) + AnalyzeLog(reply)
  {
    sink.Log(Agent, "Initializing analysis sequence...", Info);
    sink.Log(Agent, "Sending payload to Gemini model...", Info);
    if reply.NoText? {
      sink.Log(Agent, "Analysis failed: Empty response from AI", Error);
      return Fail;
    } else if reply.Threw? {
      sink.Log(Agent, "Analysis failed: " + reply.message, Error);
      return Fail;
    }
    var data := reply.value;
    if data.contactEmail == "" {
      data := data.(contactEmail := FallbackEmail);
    }
    sink.Log(Agent, "Identified Client: " + data.clientName, Success);
    sink.Log(Agent, "Extracted " + IntToString(|data.productRequirements|) + " requirements.", Info);
    r := Ok(data);
  }

  /** A successful analysis always carries a contact e-mail, and a failed one
      ends its log with an error. */
  lemma AnalyzeOutcome(reply: Reply<RfpAnalysis>)
    ensures AnalysisResult(reply).Ok? <==> reply.Answer?
    ensures reply.Answer? ==> AnalysisResult(reply).value.contactEmail != ""
                              && AnalysisResult(reply).value.clientName == reply.value.clientName
                              && AnalysisResult(reply).value.productRequirements == reply.value.productRequirements
    ensures !reply.Answer? ==> |AnalyzeLog(reply)| == 3 && AnalyzeLog(reply)[2].kind == Error
    ensures forall e :: e in AnalyzeLog(reply) ==> e.agent == Agent
  {
  }

  // ---------------------------------------------------------------------------
  // scanUrl
  // ---------------------------------------------------------------------------

  /** A mock tender; its deadline lies `offsetDays` days after `today`. */
  datatype MockRfp = MockRfp(id: string, client: string, offsetDays: int, requirements: seq<string>, score: int)

  const MockRfps: seq<MockRfp> := [
    MockRfp("RFP-WEB-101", "Nexus Health Systems", 14,
            ["5000 Liters of Anti-Bacterial Interior Paint", "200 Liters of Primer (White)",
             "Service: On-site application support"], 92),
    MockRfp("RFP-WEB-102", "Global Logistics Hub", 150, ["Industrial Floor Coating"], 45),
    MockRfp("RFP-WEB-103", "Metro City Station", 30, ["Exterior Weather-Proof Emulsion"], 78)
  ]

  function Deadline(rfp: MockRfp, today: int): int {
    today + rfp.offsetDays * DayMs
  }

  function Abs(x: int): nat {
    if x < 0 then -x else x
  }

  /** `Math.ceil(a / d)` for a >= 0 and d > 0. */
  function CeilDiv(a: nat, d: int): nat
    requires d > 0
  {
    (a + d - 1) / d
  }

  /** The ceiling is the least multiple count that reaches `a`. */
  lemma CeilDivBounds(a: nat, d: int)
    requires d > 0
    ensures (CeilDiv(a, d) - 1) * d < a <= CeilDiv(a, d) * d
  {
    var n := a + d - 1;
    assert n == n / d * d + n % d;
  }

  /** `Math.ceil(Math.abs(deadline - today) / dayMs)` */
  function DiffDays(deadline: int, today: int): nat {
    CeilDiv(Abs(deadline - today), DayMs)
  }

  predicate Rejected(rfp: MockRfp, today: int) {
    DiffDays(Deadline(rfp, today), today) > MaxDays
  }

  /** The one line logged for a tender while screening. */
  function ScreenEntry(rfp: MockRfp, today: int): LogEntry {
    var days := DiffDays(Deadline(rfp, today), today);
    if days > MaxDays then
      LogEntry(Agent, "[REJECTED] " + rfp.id + " (" + rfp.client + "): Due in " + IntToString(days) + " days (> 3 months).", Warning)
    else
      LogEntry(Agent, "[VALID] " + rfp.id + " (" + rfp.client + "): Due in " + IntToString(days) + " days.", Success)
  }

  function ScreenLog(rfps: seq<MockRfp>, today: int): (log: seq<LogEntry>)
    ensures |log| == |rfps|
    ensures forall i :: 0 <= i < |rfps| ==> log[i] == ScreenEntry(rfps[i], today)
  {
    seq(|rfps|, i requires 0 <= i < |rfps| => ScreenEntry(rfps[i], today))
  }

  /** What the loop leaves in `selectedRFP`: the first tender that passes the
      rule and has the preferred id, if any. */
  function FirstPick(rfps: seq<MockRfp>, today: int): Option<MockRfp>
    decreases |rfps|
  {
    if |rfps| == 0 then None
    else
      var before := FirstPick(rfps[..|rfps| - 1], today);
      var last := rfps[|rfps| - 1];
      if before.Some? then before
      else if !Rejected(last, today) && last.id == PreferredId then Some(last)
      else None
  }

  /** The pick exists exactly when some valid tender has the preferred id,
      and it is the first such tender. */
  lemma {:induction false} FirstPickIsFirst(rfps: seq<MockRfp>, today: int)
    ensures var r := FirstPick(rfps, today);
      (r.Some? <==> exists i :: 0 <= i < |rfps| && !Rejected(rfps[i], today) && rfps[i].id == PreferredId)
      && (r.Some? ==> exists i :: 0 <= i < |rfps| && rfps[i] == r.value && !Rejected(r.value, today) && r.value.id == PreferredId
                        && forall j :: 0 <= j < i ==> Rejected(rfps[j], today) || rfps[j].id != PreferredId)
    decreases |rfps|
  {
    if |rfps| > 0 {
      var init := rfps[..|rfps| - 1];
      FirstPickIsFirst(init, today);
      assert forall i :: 0 <= i < |init| ==> init[i] == rfps[i];
    }
  }

  /** The selection after the fallback to the first tender. */
  function Selected(rfps: seq<MockRfp>, today: int): MockRfp
    requires |rfps| > 0
  {
    FirstPick(rfps, today).GetOr(rfps[0])
  }

  /** The analysis handed on: the selected tender's client, requirements and
      score, its deadline as rendered by `formatDate`, and the fixed e-mail. */
  function ScanResult(rfp: MockRfp, today: int, formatDate: int -> string): RfpAnalysis {
    RfpAnalysis(rfp.client, formatDate(Deadline(rfp, today)), PortalEmail, rfp.requirements, rfp.score)
  }

  function ScanPreamble(url: string, count: int): seq<LogEntry> {
    [LogEntry(Agent, "Connecting to procurement portal: " + url + "...", Info),
     LogEntry(Agent, "Scraping active tenders...", Info),
     LogEntry(Agent, "Found " + IntToString(count) + " active RFPs. Filtering by 3-Month (90 Days) Deadline Rule...", Info)]
  }

  /** Everything `scanUrl` logs when it screens `rfps`. */
  function ScanLog(url: string, rfps: seq<MockRfp>, today: int): seq<LogEntry>
    requires |rfps| > 0
  {
    ScanPreamble(url, |rfps|) + ScreenLog(rfps, today)
    + [LogEntry(Agent, "Selected " + Selected(rfps, today).id + " for processing.", Success)]
  }

  /** The three lines logged before screening. */
  method LogPreamble(sink: LogSink, url: string, count: int)
    modifies sink
    ensures sink.entries == old(sink.entries) + ScanPreamble(url, count)
  {
    sink.Log(Agent, "Connecting to procurement portal: " + url + "...", Info);
    sink.Log(Agent, "Scraping active tenders...", Info);
    sink.Log(Agent, "Found " + IntToString(count) + " active RFPs. Filtering by 3-Month (90 Days) Deadline Rule...", Info);
  }

  /** The body of the `for` loop for one tender: its line, and the pick when
      nothing is picked yet and it is the valid preferred tender. */
  method ScreenOne(sink: LogSink, rfp: MockRfp, today: int, picked: Option<MockRfp>)
    returns (selected: Option<MockRfp>)
    modifies sink
    ensures selected == if picked.None? && !Rejected(rfp, today) && rfp.id == PreferredId then Some(rfp) else picked
    ensures sink.entries == old(sink.entries) + [ScreenEntry(rfp, today)]
  {
    selected := picked;
    var diffTime := Abs(Deadline(rfp, today) - today);
    var diffDays := CeilDiv(diffTime, DayMs);
    if diffDays > MaxDays {
      sink.Log(Agent, "[REJECTED] " + rfp.id + " (" + rfp.client + "): Due in " + IntToString(diffDays) + " days (> 3 months).", Warning);
    } else {
      sink.Log(Agent, "[VALID] " + rfp.id + " (" + rfp.client + "): Due in " + IntToString(diffDays) + " days.", Success);
      if selected.None? && rfp.id == PreferredId {
        selected := Some(rfp);
      }
    }
  }

  /** The `for` loop over the tenders: one line each, and the selection. */
  method Screen(sink: LogSink, rfps: seq<MockRfp>, today: int) returns (selected: Option<MockRfp>)
    modifies sink
    ensures selected == FirstPick(rfps, today)
    ensures sink.entries == old(sink.entries) + ScreenLog(rfps, today)
  {
    selected := None;
    var i := 0;
    while i < |rfps|
      invariant 0 <= i <= |rfps|
      invariant selected == FirstPick(rfps[..i], today)
      invariant sink.entries == old(sink.entries) + ScreenLog(rfps[..i], today)
    {
      selected := ScreenOne(sink, rfps[i], today, selected);
      ScreenStep(rfps, i, today);
      AppendAssoc(old(sink.entries), ScreenLog(rfps[..i], today), [ScreenEntry(rfps[i], today)]);
      i := i + 1;
    }
    assert rfps[..i] == rfps;
  }

  /** One more tender screened: its line follows the earlier ones, and the
      pick changes only if there was none and this tender qualifies. */
  lemma ScreenStep(rfps: seq<MockRfp>, i: nat, today: int)
    requires i < |rfps|
    ensures ScreenLog(rfps[..i + 1], today) == ScreenLog(rfps[..i], today) + [ScreenEntry(rfps[i], today)]
    ensures var before := FirstPick(rfps[..i], today);
      FirstPick(rfps[..i + 1], today)
        == if before.None? && !Rejected(rfps[i], today) && rfps[i].id == PreferredId then Some(rfps[i]) else before
  {
    assert rfps[..i + 1][..i] == rfps[..i];
  }

  /** RFPIdentificationAgent.scanUrl, screening the tenders `rfps`
      (`MockRfps` in the application). */
  method ScanTenders(sink: LogSink, url: string, rfps: seq<MockRfp>, today: int, formatDate: int -> string)
    returns (r: RfpAnalysis)
    requires |rfps| > 0
    modifies sink
    ensures r == ScanResult(Selected(rfps, today), today, formatDate)
    ensures sink.entries == old(sink.entries) + ScanLog(url, rfps, today)
  {
    ghost var start := sink.entries;
    LogPreamble(sink, url, |rfps|);
    var selected := Screen(sink, rfps, today);
    ghost var preamble, screened := ScanPreamble(url, |rfps|), ScreenLog(rfps, today);
    AppendAssoc(start, preamble, screened);
    if selected.None? {
      selected := Some(rfps[0]);
    }
    var rfp := selected.value;
    assert rfp == Selected(rfps, today);
    sink.Log(Agent, "Selected " + rfp.id + " for processing.", Success);
    AppendAssoc(start, preamble + screened, [LogEntry(Agent, "Selected " + rfp.id + " for processing.", Success)]);
    r := RfpAnalysis(rfp.client, formatDate(Deadline(rfp, today)), PortalEmail, rfp.requirements, rfp.score);
  }

  method ScanUrl(sink: LogSink, url: string, today: int, formatDate: int -> string) returns (r: RfpAnalysis)
    modifies sink
    ensures r == ScanResult(Selected(MockRfps, today), today, formatDate)
    ensures sink.entries == old(sink.entries) + ScanLog(url, MockRfps, today)
  {
    r := ScanTenders(sink, url, MockRfps, today, formatDate);
  }

  // ---------------------------------------------------------------------------
  // Properties
  // ---------------------------------------------------------------------------

  /** A deadline a whole number of days away is due in exactly that many
      days, whichever side of today it lies. */
  lemma DiffDaysOfOffset(today: int, k: int)
    ensures DiffDays(today + k * DayMs, today) == Abs(k)
  {
    var a := Abs(k * DayMs);
    assert a == Abs(k) * DayMs;
    var r := CeilDiv(a, DayMs);
    CeilDivBounds(a, DayMs);
    MulCancel(r as int - 1, Abs(k), DayMs);
    MulCancel(Abs(k), r, DayMs);
  }

  lemma MulCancel(a: int, b: int, d: int)
    requires d > 0
    ensures a * d < b * d ==> a < b
    ensures a * d <= b * d ==> a <= b
  {
    if a >= b {
      assert a * d - b * d == (a - b) * d;
    } else {
      assert b * d - a * d == (b - a) * d;
    }
  }

  /** A tender is rejected exactly when its deadline is more than 90 days away. */
  lemma RejectedIff(rfp: MockRfp, today: int)
    ensures Rejected(rfp, today) <==> Abs(rfp.offsetDays) > MaxDays
    ensures ScreenEntry(rfp, today).kind == (if Abs(rfp.offsetDays) > MaxDays then Warning else Success)
  {
    DiffDaysOfOffset(today, rfp.offsetDays);
  }

  /** With the mock tenders due in 14, 150 and 30 days, only RFP-WEB-102 is
      rejected, whatever the date. */
  lemma MockScreening(today: int)
    ensures !Rejected(MockRfps[0], today) && Rejected(MockRfps[1], today) && !Rejected(MockRfps[2], today)
    ensures [ScreenLog(MockRfps, today)[0].kind, ScreenLog(MockRfps, today)[1].kind, ScreenLog(MockRfps, today)[2].kind]
            == [Success, Warning, Success]
  {
    RejectedIff(MockRfps[0], today);
    RejectedIff(MockRfps[1], today);
    RejectedIff(MockRfps[2], today);
  }

  /** Whatever the date, RFP-WEB-101 is selected, and the analysis carries
      its client, requirements and score with the fixed e-mail. */
  lemma AlwaysSelectsFirst(today: int, formatDate: int -> string)
    ensures Selected(MockRfps, today) == MockRfps[0]
    ensures var r := ScanResult(Selected(MockRfps, today), today, formatDate);
      r.clientName == "Nexus Health Systems" && r.contactEmail == PortalEmail
      && r.productRequirements == MockRfps[0].requirements && r.priorityScore == 92
  {
    MockScreening(today);
    assert MockRfps[..1][..0] == [];
    assert FirstPick(MockRfps[..1], today) == Some(MockRfps[0]);
    assert MockRfps[..2][..1] == MockRfps[..1];
    assert MockRfps[..3][..2] == MockRfps[..2];
    assert MockRfps[..3] == MockRfps;
  }

  /** Whichever tenders are screened, the selection falls back to the first
      one only when no valid tender has the preferred id. */
  lemma SelectionRule(rfps: seq<MockRfp>, today: int)
    requires |rfps| > 0
    ensures (forall i :: 0 <= i < |rfps| ==> Rejected(rfps[i], today) || rfps[i].id != PreferredId)
            ==> Selected(rfps, today) == rfps[0]
    ensures !(forall i :: 0 <= i < |rfps| ==> Rejected(rfps[i], today) || rfps[i].id != PreferredId)
            ==> Selected(rfps, today).id == PreferredId && !Rejected(Selected(rfps, today), today)
  {
    FirstPickIsFirst(rfps, today);
  }

  /** Every line `scanUrl` logs is the agent's own. */
  lemma ScanLogAgents(url: string, rfps: seq<MockRfp>, today: int)
    requires |rfps| > 0
    ensures forall e :: e in ScanLog(url, rfps, today) ==> e.agent == Agent
  {
    forall e | e in ScreenLog(rfps, today) ensures e.agent == Agent {
      var i :| 0 <= i < |rfps| && ScreenLog(rfps, today)[i] == e;
    }
  }
}
