/** PricingAgent.calculate after the provider call: the provider's line items
    are mapped onto PricingLineItem, fixed QA lab fees are appended for the
    catalog category of each match's top-level product, and the total is the
    provider's total plus the fees. Any failure degrades to an empty result. */
module Pricing {
  import opened Types
  import opened Text
  import opened Gateway
  import opened Logging
  import opened ProductDatabase

  const Agent := "PRICING-AGENT"

  /** One entry of the provider's `line_items`, as its response schema has it. */
  datatype RawLineItem = RawLineItem(
    description: string,
    quantity: int,
    unitPrice: real,
    totalPrice: real,
    discountApplied: Option<string>,
    pricingLogic: string)

  datatype RawPricing = RawPricing(lineItems: seq<RawLineItem>, totalCost: real)

  // ---------------------------------------------------------------------------
  // Mapping the provider's items
  // ---------------------------------------------------------------------------

  /** A discount note is shown when present and non-empty (JavaScript truthiness). */
  predicate HasDiscount(item: RawLineItem) {
    item.discountApplied.Some? && item.discountApplied.value != ""
  }

  /** `total_price` becomes `total`; the note is the discount, or else the
      pricing logic. */
  function MapLineItem(item: RawLineItem): (r: PricingLineItem)
    ensures r.description == item.description && r.quantity == item.quantity
    ensures r.unitPrice == item.unitPrice && r.total == item.totalPrice
    ensures HasDiscount(item) ==> r.note == item.discountApplied
    ensures !HasDiscount(item) ==> r.note == Some(item.pricingLogic)
  {
    PricingLineItem(
      item.description, item.quantity, item.unitPrice, item.totalPrice,
      Some(if HasDiscount(item) then item.discountApplied.value else item.pricingLogic))
  }

  /** `data.line_items.map(...)`: one output per input, in order. */
  function MapItems(items: seq<RawLineItem>): (r: seq<PricingLineItem>)
    ensures |r| == |items|
    ensures forall i :: 0 <= i < |items| ==> r[i] == MapLineItem(items[i])
  {
    seq(|items|, i requires 0 <= i < |items| => MapLineItem(items[i]))
  }

  // ---------------------------------------------------------------------------
  // The lab-fee rules
  // ---------------------------------------------------------------------------

  const FeePrefix := "QA Lab:"

  /** A fee line: `QA Lab: <test> (<product name>)`, one unit, unit price
      equal to total. */
  function FeeLine(test: string, name: string, amount: real, note: string): (r: PricingLineItem)
    ensures r.quantity == 1 && r.unitPrice == r.total == amount
    ensures StartsWith(r.description, FeePrefix)
  {
    var description := FeePrefix + (" " + test + " (" + name + ")");
    assert description[..|FeePrefix|] == FeePrefix;
    PricingLineItem(description, 1, amount, amount, Some(note))
  }

  function UvFee(name: string): PricingLineItem {
    FeeLine("UV Resistance Test", name, 150.0, "Mandatory for Exterior")
  }

  function AlgalFee(name: string): PricingLineItem {
    FeeLine("Algal Resistance Test", name, 200.0, "Mandatory for Exterior")
  }

  function WashabilityFee(name: string): PricingLineItem {
    FeeLine("Washability Test", name, 100.0, "Mandatory for Interior")
  }

  function VocFee(name: string): PricingLineItem {
    FeeLine("VOC Compliance Check", name, 300.0, "Safety Standard")
  }

  function AbrasionFee(name: string): PricingLineItem {
    FeeLine("Abrasion Resistance Test", name, 250.0, "Durability Standard")
  }

  predicate NeedsAbrasionTest(p: Product) {
    p.category == "Industrial" || Contains(ToLower(p.name), "floor")
  }

  /** A fee line: one unit, unit price equal to total, one of the five fixed
      amounts, and a description that starts with "QA Lab:". */
  predicate IsFeeLine(f: PricingLineItem) {
    f.quantity == 1 && f.unitPrice == f.total
    && f.total in {100.0, 150.0, 200.0, 250.0, 300.0}
    && StartsWith(f.description, FeePrefix)
  }

  /** The three independent rules, in the order they push. */
  function ProductFees(p: Product): seq<PricingLineItem> {
    (if p.category == "Exterior" then [UvFee(p.name), AlgalFee(p.name)] else [])
    + (if p.category == "Interior" then [WashabilityFee(p.name), VocFee(p.name)] else [])
    + (if NeedsAbrasionTest(p) then [AbrasionFee(p.name)] else [])
  }

  /** The fees one match adds. Only its top-level `productId` is read, and only
      when it is non-empty and names a catalog product. */
  function MatchFees(m: MatchedItem): (r: seq<PricingLineItem>)
    ensures m.productId.Some? && m.productId.value != "" && Find(m.productId.value).Some? ==>
              r == ProductFees(Find(m.productId.value).value)
    ensures r != [] ==> m.productId.Some? && m.productId.value != ""
                        && Find(m.productId.value).Some?
                        && r == ProductFees(Find(m.productId.value).value)
  {
    if m.productId.Some? && m.productId.value != "" then
      match Find(m.productId.value)
      case Some(p) => ProductFees(p)
      case None => []
    else []
  }

  /** The `labFees` array after the `forEach`: each match's fees in match order. */
  function LabFees(ms: seq<MatchedItem>): seq<PricingLineItem>
    decreases |ms|
  {
    if |ms| == 0 then [] else LabFees(ms[..|ms| - 1]) + MatchFees(ms[|ms| - 1])
  }

  /** `labFees.reduce((sum, item) => sum + item.total, 0)` */
  function FeeTotal(items: seq<PricingLineItem>): real
    decreases |items|
  {
    if |items| == 0 then 0.0 else FeeTotal(items[..|items| - 1]) + items[|items| - 1].total
  }

  /** The sum of the provider's own `total_price` values. */
  function RawTotal(items: seq<RawLineItem>): real
    decreases |items|
  {
    if |items| == 0 then 0.0 else RawTotal(items[..|items| - 1]) + items[|items| - 1].totalPrice
  }

  /** What `calculate` returns for a reply. */
  function Calculation(matches: seq<MatchedItem>, reply: Reply<RawPricing>): PricingResult {
    match reply
    case Answer(raw) =>
      var fees := LabFees(matches);
      PricingResult(MapItems(raw.lineItems) + fees, raw.totalCost + FeeTotal(fees))
    case _ => PricingResult([], 0.0)
  }

  // ---------------------------------------------------------------------------
  // Logging
  // ---------------------------------------------------------------------------

  const StartMessage := "Initiating AI-driven cost analysis & market estimation..."

  function FailureMessage(reply: Reply<RawPricing>): string
    requires !reply.Answer?
  {
    "Pricing calculation failed: " + (if reply.NoText? then "Empty response from Pricing AI" else reply.message)
  }

  /** What is logged after the fees are known: their count, when there are
      any, then the grand total. `formatAmount` stands for `toLocaleString`. */
  function ClosingLog(fees: seq<PricingLineItem>, total: real, formatAmount: real -> string): seq<LogEntry> {
    (if |fees| > 0 then [LogEntry(Agent, "Applying " + IntToString(|fees|) + " mandatory Lab Testing Fees...", Info)] else [])
    + [LogEntry(Agent, "Calculation Complete. Total Value: $" + formatAmount(total), Success)]
  }

  /** Everything `calculate` logs. */
  function PricingLog(matches: seq<MatchedItem>, reply: Reply<RawPricing>, formatAmount: real -> string): seq<LogEntry> {
    [LogEntry(Agent, StartMessage, Info)]
    + match reply
      case Answer(raw) => ClosingLog(LabFees(matches), Calculation(matches, reply).totalCost, formatAmount)
      case _ => [LogEntry(Agent, FailureMessage(reply), Error)]
  }

  // ---------------------------------------------------------------------------
  // The stage
  // ---------------------------------------------------------------------------

  /** The three rules' pushes for one catalog product. */
  method PushProductFees(labFees: seq<PricingLineItem>, p: Product) returns (r: seq<PricingLineItem>)
    ensures r == labFees + ProductFees(p)
  {
    r := labFees;
    if p.category == "Exterior" {
      r := r + [UvFee(p.name), AlgalFee(p.name)];
    }
    if p.category == "Interior" {
      r := r + [WashabilityFee(p.name), VocFee(p.name)];
    }
    if p.category == "Industrial" || Contains(ToLower(p.name), "floor") {
      r := r + [AbrasionFee(p.name)];
    }
  }

  /** The body of the `forEach`: the pushes for one match, when its top-level
      product id is set and found in the catalog. */
  method PushMatchFees(labFees: seq<PricingLineItem>, m: MatchedItem) returns (r: seq<PricingLineItem>)
    ensures r == labFees + MatchFees(m)
  {
    r := labFees;
    if m.productId.Some? && m.productId.value != "" {
      var product := Find(m.productId.value);
      if product.Some? {
        r := PushProductFees(r, product.value);
      }
    }
  }

  /** The `matches.forEach` that pushes the lab fees. */
  method CollectLabFees(matches: seq<MatchedItem>) returns (labFees: seq<PricingLineItem>)
    ensures labFees == LabFees(matches)
  {
    labFees := [];
    var i := 0;
    while i < |matches|
      invariant 0 <= i <= |matches|
      invariant labFees == LabFees(matches[..i])
    {
      labFees := PushMatchFees(labFees, matches[i]);
      assert matches[..i + 1][..i] == matches[..i];
      i := i + 1;
    }
    assert matches[..i] == matches;
  }

  /** PricingAgent.calculate after the provider call. */
  method Calculate(sink: LogSink, matches: seq<MatchedItem>, reply: Reply<RawPricing>, formatAmount: real -> string)
    returns (r: PricingResult)
    modifies sink
    ensures r == Calculation(matches, reply)
    ensures sink.entries == old(sink.entries) + PricingLog(matches, reply, formatAmount)
  {
    ghost var start := sink.entries;
    sink.Log(Agent, StartMessage, Info);
    if !reply.Answer? {
      sink.Log(Agent, FailureMessage(reply), Error);
      AppendAssoc(start, [LogEntry(Agent, StartMessage, Info)], [LogEntry(Agent, FailureMessage(reply), Error)]);
      return PricingResult([], 0.0);
    }
    ghost var started := sink.entries;
    var data := reply.value;
    var mappedItems := MapItems(data.lineItems);
    var labFees := CollectLabFees(matches);
    if |labFees| > 0 {
      sink.Log(Agent, "Applying " + IntToString(|labFees|) + " mandatory Lab Testing Fees...", Info);
    }
    var finalItems := mappedItems + labFees;
    var finalTotal := data.totalCost + FeeTotal(labFees);
    sink.Log(Agent, "Calculation Complete. Total Value: $" + formatAmount(finalTotal), Success);
    r := PricingResult(finalItems, finalTotal);
    assert sink.entries == started + ClosingLog(labFees, finalTotal, formatAmount);
    AppendAssoc(start, [LogEntry(Agent, StartMessage, Info)], ClosingLog(labFees, finalTotal, formatAmount));
  }

  // ---------------------------------------------------------------------------
  // Properties
  // ---------------------------------------------------------------------------

  /** Every line a product adds is a fee line. */
  lemma ProductFeesAreFeeLines(p: Product)
    ensures forall f :: f in ProductFees(p) ==> IsFeeLine(f)
  {
  }

  /** Every lab fee line, over any list of matches, is a fee line: one unit
      of one of the five fixed amounts, described "QA Lab: ...". */
  lemma {:induction false} LabFeesAreFeeLines(ms: seq<MatchedItem>)
    ensures forall f :: f in LabFees(ms) ==> IsFeeLine(f)
    decreases |ms|
  {
    if |ms| > 0 {
      LabFeesAreFeeLines(ms[..|ms| - 1]);
      var m := ms[|ms| - 1];
      if MatchFees(m) != [] {
        ProductFeesAreFeeLines(Find(m.productId.value).value);
      }
    }
  }

  /** Fees per category: Exterior adds 150 then 200, Interior 100 then 300,
      Industrial or a "floor" name one 250; the rules are independent, so
      their fees add up. */
  lemma ProductFeesByCategory(p: Product)
    ensures p.category == "Exterior" ==> ProductFees(p)[..2] == [UvFee(p.name), AlgalFee(p.name)]
    ensures p.category == "Interior" ==> ProductFees(p)[..2] == [WashabilityFee(p.name), VocFee(p.name)]
    ensures NeedsAbrasionTest(p) ==> ProductFees(p)[|ProductFees(p)| - 1] == AbrasionFee(p.name)
    ensures |ProductFees(p)| == (if p.category in {"Exterior", "Interior"} then 2 else 0)
                              + (if NeedsAbrasionTest(p) then 1 else 0)
    ensures FeeTotal(ProductFees(p)) == (if p.category == "Exterior" then 350.0 else 0.0)
                                       + (if p.category == "Interior" then 400.0 else 0.0)
                                       + (if NeedsAbrasionTest(p) then 250.0 else 0.0)
  {
    var ext := if p.category == "Exterior" then [UvFee(p.name), AlgalFee(p.name)] else [];
    var inn := if p.category == "Interior" then [WashabilityFee(p.name), VocFee(p.name)] else [];
    var abr := if NeedsAbrasionTest(p) then [AbrasionFee(p.name)] else [];
    FeeTotalAppend(ext, inn);
    FeeTotalAppend(ext + inn, abr);
    assert FeeTotal([UvFee(p.name), AlgalFee(p.name)]) == 350.0 by {
      assert [UvFee(p.name), AlgalFee(p.name)][..1] == [UvFee(p.name)];
    }
    assert FeeTotal([WashabilityFee(p.name), VocFee(p.name)]) == 400.0 by {
      assert [WashabilityFee(p.name), VocFee(p.name)][..1] == [WashabilityFee(p.name)];
    }
  }

  /** No fee for a match without a product id, with an empty one, or with
      one the catalog does not know. */
  lemma NoFeeWithoutCatalogProduct(m: MatchedItem)
    requires m.productId.None? || m.productId.value == "" || m.productId.value !in CatalogIds
    ensures MatchFees(m) == []
  {
    if m.productId.Some? {
      FindResolvesCatalogIds(m.productId.value);
    }
  }

  lemma {:induction false} FeeTotalAppend(a: seq<PricingLineItem>, b: seq<PricingLineItem>)
    ensures FeeTotal(a + b) == FeeTotal(a) + FeeTotal(b)
    decreases |b|
  {
    if |b| > 0 {
      FeeTotalAppend(a, b[..|b| - 1]);
      assert (a + b)[..|a + b| - 1] == a + b[..|b| - 1];
    } else {
      assert a + b == a;
    }
  }

  lemma {:induction false} MappedTotalsAgree(items: seq<RawLineItem>)
    ensures FeeTotal(MapItems(items)) == RawTotal(items)
    decreases |items|
  {
    if |items| > 0 {
      MappedTotalsAgree(items[..|items| - 1]);
      assert MapItems(items)[..|items| - 1] == MapItems(items[..|items| - 1]);
    }
  }

  /** The result is the mapped items followed by the fees; the fees are added
      to the provider's total, which is not re-checked, so the result adds up
      exactly when the provider's own total does. A failed reply gives an
      empty, zero-total result. */
  lemma CalculationAddsUp(matches: seq<MatchedItem>, reply: Reply<RawPricing>)
    ensures reply.Answer? ==>
      var r := Calculation(matches, reply);
      |r.lineItems| == |reply.value.lineItems| + |LabFees(matches)|
      && r.lineItems[..|reply.value.lineItems|] == MapItems(reply.value.lineItems)
      && r.lineItems[|reply.value.lineItems|..] == LabFees(matches)
      && (r.totalCost == FeeTotal(r.lineItems) <==> reply.value.totalCost == RawTotal(reply.value.lineItems))
    ensures !reply.Answer? ==> Calculation(matches, reply) == PricingResult([], 0.0)
  {
    if reply.Answer? {
      var raw := reply.value;
      FeeTotalAppend(MapItems(raw.lineItems), LabFees(matches));
      MappedTotalsAgree(raw.lineItems);
    }
  }

  /** Against this catalog an Exterior product costs 350 in fees, an Interior
      one 400, and every other product nothing: the abrasion fee never fires. */
  lemma CatalogProductFees(p: Product)
    requires p in Products
    ensures p.category == "Exterior" ==> ProductFees(p) == [UvFee(p.name), AlgalFee(p.name)]
    ensures p.category == "Interior" ==> ProductFees(p) == [WashabilityFee(p.name), VocFee(p.name)]
    ensures p.category !in {"Exterior", "Interior"} ==> ProductFees(p) == []
    ensures !NeedsAbrasionTest(p)
  {
    NoIndustrialOrFloorProduct();
  }

  /** So no lab fee line is ever an abrasion fee, and each is 100, 150, 200 or 300. */
  lemma {:induction false} NoAbrasionFeeAgainstCatalog(ms: seq<MatchedItem>)
    ensures forall f :: f in LabFees(ms) ==> f.total in {100.0, 150.0, 200.0, 300.0}
    decreases |ms|
  {
    if |ms| > 0 {
      NoAbrasionFeeAgainstCatalog(ms[..|ms| - 1]);
      var m := ms[|ms| - 1];
      if MatchFees(m) != [] {
        var p := Find(m.productId.value).value;
        FindResolvesCatalogIds(m.productId.value);
        assert p in Products;
        CatalogProductFees(p);
      }
    }
  }

  /** Any match whose id is a catalog id resolves to the catalog product with
      that id, and adds exactly the fees of its category: the UV and Algal
      tests for Exterior, the Washability and VOC tests for Interior, none
      otherwise. */
  lemma ResolvedMatchFees(m: MatchedItem)
    requires m.productId.Some? && m.productId.value in CatalogIds
    ensures Find(m.productId.value).Some?
    ensures var p := Find(m.productId.value).value;
      p in Products && p.id == m.productId.value
      && (p.category == "Exterior" ==> MatchFees(m) == [UvFee(p.name), AlgalFee(p.name)])
      && (p.category == "Interior" ==> MatchFees(m) == [WashabilityFee(p.name), VocFee(p.name)])
      && (p.category !in {"Exterior", "Interior"} ==> MatchFees(m) == [])
  {
    var id := m.productId.value;
    FindResolvesCatalogIds(id);
    var p := Find(id).value;
    assert p in Products;
    assert id != "" by {
      assert id == p.id;
    }
    CatalogProductFees(p);
  }

  /** A match whose top product is AP-002 (Apex Ultima Protek, Exterior) adds
      the UV and Algal tests, 350 in all. */
  lemma ExteriorMatchAddsTwoFees(m: MatchedItem)
    requires m.productId == Some("AP-002")
    ensures MatchFees(m) == [UvFee("Apex Ultima Protek"), AlgalFee("Apex Ultima Protek")]
    ensures FeeTotal(MatchFees(m)) == 350.0
  {
    FindResolvesCatalogIds("AP-002");
    assert Products[1].id == "AP-002";
    CatalogProductFees(Ap002);
    ProductFeesByCategory(Ap002);
  }

  /** One start line; then, for an answer, the fee-count line exactly when
      there are fees and a closing success line; otherwise one error line. */
  lemma PricingLogShape(matches: seq<MatchedItem>, reply: Reply<RawPricing>, formatAmount: real -> string)
    ensures var log := PricingLog(matches, reply, formatAmount);
      (forall e :: e in log ==> e.agent == Agent)
      && log[0] == LogEntry(Agent, StartMessage, Info)
      && (reply.Answer? ==> |log| == (if LabFees(matches) == [] then 2 else 3) && log[|log| - 1].kind == Success)
      && (!reply.Answer? ==> |log| == 2 && log[1].kind == Error)
  {
  }
}
