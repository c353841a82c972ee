/**
 * The single-product monitor of mepiform-monitor.js: it reads the product
 * page through the scraper, grades the stock text with two keyword tables
 * and a confidence, and on a change to "available" picks a quantity of 350
 * or 700 units from the price and hands it to the order step.
 */
module MepiformMonitor {
  import opened Text
  import opened Wrappers
  import opened Prices
  import opened ProductScraper

  const AvailableKeywords: seq<string> :=
    ["tillgänglig", "i lager", "finns", "leverans", "available", "in stock", "ready"]

  const UnavailableKeywords: seq<string> :=
    ["slut", "inte tillgänglig", "ej i lager", "restorder", "out of stock", "unavailable", "sold out", "inte på lager"]

  /** The grading of a stock text: available or not, how sure, and the lower-cased text it read. */
  datatype Analysis = Analysis(isAvailable: bool, confidence: nat, keywordsFound: string)

  /** The delivery wording that forces "available" at the end. */
  predicate MentionsDelivery(t: string)
  {
    Contains(t, "leveranstid") || Contains(t, "delivery")
  }

  /** The grade of a lower-cased stock text: delivery wording, or an available keyword and no unavailable one. */
  predicate GradedAvailable(t: string)
  {
    MentionsDelivery(t) || (ContainsAny(t, AvailableKeywords) && !ContainsAny(t, UnavailableKeywords))
  }

  /** A keyword among the first `i + 1` occurs iff one among the first `i` does or the `i`-th does. */
  lemma ContainsAnyNext(t: string, words: seq<string>, i: nat)
    requires i < |words|
    ensures ContainsAny(t, words[..i + 1]) <==> ContainsAny(t, words[..i]) || Contains(t, words[i])
  {
    assert words[..i + 1] == words[..i] + [words[i]];
    if ContainsAny(t, words[..i]) {
      var w :| w in words[..i] && Contains(t, w);
      assert w in words[..i + 1];
    }
    if Contains(t, words[i]) {
      assert words[i] in words[..i + 1];
    }
  }

  /**
   * `analyzeStockStatus`: the first available keyword sets 90, then any
   * unavailable keyword overrides with 95, and delivery wording forces
   * "available" with at least 80.
   */
  method AnalyzeStockStatus(stockStatus: string) returns (a: Analysis)
    ensures a.keywordsFound == ToLower(stockStatus)
    ensures a.isAvailable == GradedAvailable(ToLower(stockStatus))
    ensures var t := ToLower(stockStatus);
            a.confidence ==
              if ContainsAny(t, UnavailableKeywords) then 95
              else if ContainsAny(t, AvailableKeywords) then 90
              else if MentionsDelivery(t) then 80
              else 50
    ensures a.confidence in {50, 80, 90, 95}
  {
    var text := ToLower(stockStatus);
    var confidence: nat := 50;
    var isAvailable := false;

    var i := 0;
    while i < |AvailableKeywords|
      invariant 0 <= i <= |AvailableKeywords|
      invariant !isAvailable && confidence == 50 && !ContainsAny(text, AvailableKeywords[..i])
    {
      ContainsAnyNext(text, AvailableKeywords, i);
      if Contains(text, AvailableKeywords[i]) {
        isAvailable := true;
        confidence := 90;
        break;
      }
      i := i + 1;
    }
    assert AvailableKeywords[..|AvailableKeywords|] == AvailableKeywords;
    assert isAvailable <==> ContainsAny(text, AvailableKeywords);
    ghost var anyAvailable := isAvailable;

    var j := 0;
    while j < |UnavailableKeywords|
      invariant 0 <= j <= |UnavailableKeywords|
      invariant isAvailable == anyAvailable && confidence == (if anyAvailable then 90 else 50)
      invariant !ContainsAny(text, UnavailableKeywords[..j])
    {
      ContainsAnyNext(text, UnavailableKeywords, j);
      if Contains(text, UnavailableKeywords[j]) {
        isAvailable := false;
        confidence := 95;
        break;
      }
      j := j + 1;
    }
    assert UnavailableKeywords[..|UnavailableKeywords|] == UnavailableKeywords;
    assert confidence == 95 <==> ContainsAny(text, UnavailableKeywords);

    if Contains(text, "leveranstid") || Contains(text, "delivery") {
      isAvailable := true;
      confidence := if confidence >= 80 then confidence else 80;
    }
    a := Analysis(isAvailable, confidence, text);
  }

  /** `determineOrderQuantity`: 700 when the price is positive and 700 units stay within the maximum, else 350. */
  function DetermineOrderQuantity(price: string, maxOrderAmount: int): (q: nat)
    ensures var p := StrippedPrice(OrText(Some(price), "0"));
            (q == 700 <==> Truthy(p) && TimesAtMost(p, 700, maxOrderAmount))
            && (q != 700 ==> q == 350)
  {
    var p := StrippedPrice(OrText(Some(price), "0"));
    if Truthy(p) && TimesAtMost(p, 700, maxOrderAmount) then 700
    else if Truthy(p) && TimesAtMost(p, 350, maxOrderAmount) then 350
    else 350
  }

  /** The comma filter drops a decimal comma: "<k>,00" reads as 100·k, so 700 units are ordered only under a hundredfold maximum. */
  lemma CommaPriceReadsHundredfold(kronor: nat, maxOrderAmount: int)
    ensures DetermineOrderQuantity(NatToString(kronor) + ",00", maxOrderAmount)
              == (if kronor > 0 && 70000 * kronor <= maxOrderAmount then 700 else 350)
  {
    StrippedPriceDropsComma(kronor, '0', '0');
    assert NatToString(kronor) + ",00" == NatToString(kronor) + "," + ['0', '0'];
  }

  /** Whether the order step runs on a check: the previous status was seen, differed, and the new one is available. */
  predicate Triggers(lastStatus: Option<bool>, isAvailable: bool)
  {
    lastStatus != None && lastStatus != Some(isAvailable) && isAvailable
  }

  /** Only a change from "not available" to "available" triggers; the first check never does. */
  lemma TriggersOnRisingEdge(lastStatus: Option<bool>, isAvailable: bool)
    ensures Triggers(lastStatus, isAvailable) <==> lastStatus == Some(false) && isAvailable
    ensures !Triggers(None, isAvailable)
  {
    match lastStatus
    case None =>
    case Some(_) =>
  }

  class Monitor {
    var isMonitoring: bool
    /** The availability at the previous successful check; `None` before the first. */
    var lastStatus: Option<bool>

    constructor ()
      ensures !isMonitoring && lastStatus == None
    {
      isMonitoring := false;
      lastStatus := None;
    }

    /**
     * `checkMepiformStatus` on the scraper's answer: a thrown check changes
     * nothing; otherwise the grading is recorded, and on a trigger with
     * auto-ordering on the chosen quantity goes to the order step.
     */
    method CheckMepiformStatus(check: Result<ProductResult>, autoOrderEnabled: bool, maxOrderAmount: int)
      returns (analysis: Option<Analysis>, ordered: Option<nat>)
      modifies this`lastStatus
      ensures check.Err? ==> analysis == None && ordered == None && lastStatus == old(lastStatus)
      ensures check.Ok? ==> analysis.Some? && analysis.value.keywordsFound == ToLower(check.value.stockStatus)
                            && analysis.value.isAvailable == GradedAvailable(ToLower(check.value.stockStatus))
                            && lastStatus == Some(analysis.value.isAvailable)
      ensures ordered.Some? <==>
                check.Ok? && autoOrderEnabled && old(lastStatus) == Some(false) && analysis.value.isAvailable
      ensures ordered.Some? ==> ordered.value == DetermineOrderQuantity(check.value.price, maxOrderAmount)
    {
      if check.Err? {
        return None, None;
      }
      var result := check.value;
      var a := AnalyzeStockStatus(result.stockStatus);
      ordered := None;
      TriggersOnRisingEdge(lastStatus, a.isAvailable);
      if Triggers(lastStatus, a.isAvailable) {
        if autoOrderEnabled {
          ordered := Some(DetermineOrderQuantity(result.price, maxOrderAmount));
        }
      }
      lastStatus := Some(a.isAvailable);
      analysis := Some(a);
    }

    /** `startMonitoring`: refused while running; else sets the flag and runs the first check. */
    method StartMonitoring(first: Result<ProductResult>, autoOrderEnabled: bool, maxOrderAmount: int)
      returns (started: bool, analysis: Option<Analysis>, ordered: Option<nat>)
      modifies this`isMonitoring, this`lastStatus
      ensures started == !old(isMonitoring) && isMonitoring
      ensures !(started && first.Ok?) ==> analysis == None && ordered == None && lastStatus == old(lastStatus)
      ensures started && first.Ok? ==>
                analysis.Some? && analysis.value.isAvailable == GradedAvailable(ToLower(first.value.stockStatus))
                && lastStatus == Some(analysis.value.isAvailable)
      ensures ordered.Some? <==>
                started && first.Ok? && autoOrderEnabled && old(lastStatus) == Some(false) && analysis.value.isAvailable
      ensures ordered.Some? ==> ordered.value == DetermineOrderQuantity(first.value.price, maxOrderAmount)
    {
      if isMonitoring {
        return false, None, None;
      }
      isMonitoring := true;
      analysis, ordered := CheckMepiformStatus(first, autoOrderEnabled, maxOrderAmount);
      started := true;
    }

    /** `stopMonitoring`: does nothing when not running; else clears the flag. */
    method StopMonitoring() returns (stopped: bool)
      modifies this`isMonitoring
      ensures stopped == old(isMonitoring) && !isMonitoring
    {
      if !isMonitoring {
        return false;
      }
      isMonitoring := false;
      stopped := true;
    }
  }
}
