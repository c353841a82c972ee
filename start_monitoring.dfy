/**
 * The monitoring script start-mepiform-monitoring.js: a stock check through
 * the scraper, a yes/no reading of the Swedish stock text, and on a change to
 * "available" an order of 700 or 350 units chosen against a budget, or only a
 * notification. Its module-level `lastStatus` and `isMonitoring` become the
 * fields of one object.
 */
module StartMepiformMonitoring {
  import opened Text
  import opened Wrappers
  import opened Prices
  import opened ProductScraper

  const AvailableKeywords: seq<string> :=
    ["tillgänglig", "i lager", "finns", "leverans", "beställ", "available", "in stock", "order", "buy"]

  const UnavailableKeywords: seq<string> :=
    ["slut", "inte tillgänglig", "ej i lager", "restorder", "tillfälligt slut",
     "out of stock", "unavailable", "sold out", "temporarily out"]

  /** The reading the script settles on: non-empty text that mentions some available keyword. */
  predicate IsAvailableText(statusText: string)
  {
    statusText != "" && ContainsAny(ToLower(statusText), AvailableKeywords)
  }

  /** The index of the first of `words` found in `text` at or after `i`; `|words|` when none is. */
  method FirstKeyword(text: string, words: seq<string>) returns (i: nat)
    ensures i <= |words|
    ensures forall k :: 0 <= k < i ==> !Contains(text, words[k])
    ensures i < |words| ==> Contains(text, words[i])
  {
    i := 0;
    while i < |words|
      invariant i <= |words|
      invariant forall k :: 0 <= k < i ==> !Contains(text, words[k])
    {
      if Contains(text, words[i]) {
        return;
      }
      i := i + 1;
    }
  }

  /** A search that stops before the end found a word; one that runs out found none. */
  lemma FirstKeywordMeansAny(text: string, words: seq<string>, i: nat)
    requires i <= |words|
    requires forall k :: 0 <= k < i ==> !Contains(text, words[k])
    requires i < |words| ==> Contains(text, words[i])
    ensures i < |words| <==> ContainsAny(text, words)
  {
    if i < |words| {
      assert words[i] in words;
    }
  }

  /**
   * `analyzeSwedishStockStatus`: empty text is unavailable; a hit in the
   * available table returns true; a hit in the unavailable table, or none
   * at all, returns false. The second search cannot change the answer.
   */
  method AnalyzeSwedishStockStatus(statusText: string) returns (available: bool)
    ensures available == IsAvailableText(statusText)
  {
    if statusText == "" {
      return false;
    }
    var text := ToLower(statusText);
    var i := FirstKeyword(text, AvailableKeywords);
    FirstKeywordMeansAny(text, AvailableKeywords, i);
    if i < |AvailableKeywords| {
      return true;
    }
    var j := FirstKeyword(text, UnavailableKeywords);
    if j < |UnavailableKeywords| {
      return false;
    }
    available := false;
  }

  /** Keyword hits inside longer words decide: "unavailable" reads as available (it contains "available"). */
  lemma UnavailableReadsAvailable()
    ensures IsAvailableText("unavailable")
  {
    ToLowerOfLowerCase("unavailable");
    assert "unavailable"[2..11] == "available";
    ContainsAt("unavailable", "available", 2);
    assert AvailableKeywords[5] == "available";
  }

  /** "restorder" (back order) reads as available: it contains "order". */
  lemma RestorderReadsAvailable()
    ensures IsAvailableText("restorder")
  {
    ToLowerOfLowerCase("restorder");
    assert "restorder"[4..9] == "order";
    ContainsAt("restorder", "order", 4);
    assert AvailableKeywords[7] == "order";
  }

  /** "tillfälligt slut i lager" (temporarily out of stock) reads as available: it contains "i lager". */
  lemma TemporarilyOutReadsAvailable()
    ensures IsAvailableText("tillfälligt slut i lager")
  {
    var t := "tillfälligt slut i lager";
    ToLowerOfLowerCase(t);
    assert t[17..24] == "i lager";
    ContainsAt(t, "i lager", 17);
    assert AvailableKeywords[1] == "i lager";
  }

  /** `parseInt(MAX_ORDER_AMOUNT) || 50000`: a missing, unparsable or zero setting gives 50000. */
  function MaxAmount(env: Option<int>): (m: int)
    ensures env.None? || env.value == 0 ==> m == 50000
    ensures env.Some? && env.value != 0 ==> m == env.value
  {
    if env.Some? && env.value != 0 then env.value else 50000
  }

  /** What the ordering path ends in: an order of some quantity, or only a notification. */
  datatype Decision = Order(quantity: nat) | NotifyOnly

  /**
   * The quantity choice of `handleStockAvailable`: 350 when the price is not
   * positive (or not a number); else 700 if 700 units fit the budget, 350 if
   * 350 do, and otherwise no order.
   */
  function ChooseQuantity(price: string, maxEnv: Option<int>): (d: Decision)
    ensures var p := StrippedPrice(OrText(Some(price), "0"));
            var max := MaxAmount(maxEnv);
            (!Truthy(p) ==> d == Order(350))
            && (Truthy(p) ==> (d == Order(700) <==> TimesAtMost(p, 700, max))
                              && (d == NotifyOnly <==> !TimesAtMost(p, 350, max)))
            && (d.Order? ==> d.quantity == 350 || d.quantity == 700)
  {
    var p := StrippedPrice(OrText(Some(price), "0"));
    if !Truthy(p) then Order(350)
    else
      var max := MaxAmount(maxEnv);
      if TimesAtMost(p, 700, max) then Order(700)
      else if TimesAtMost(p, 350, max) then Order(350)
      else NotifyOnly
  }

  /** Auto-ordering needs the setting to be exactly "true". */
  predicate AutoOrderEnabled(env: Option<string>)
  {
    env == Some("true")
  }

  /** The ordering path: a notification only, unless auto-ordering is on; then the quantity choice. */
  function HandleStockAvailable(price: string, autoOrderEnv: Option<string>, maxEnv: Option<int>): (d: Decision)
    ensures !AutoOrderEnabled(autoOrderEnv) ==> d == NotifyOnly
    ensures AutoOrderEnabled(autoOrderEnv) ==> d == ChooseQuantity(price, maxEnv)
  {
    if !AutoOrderEnabled(autoOrderEnv) then NotifyOnly else ChooseQuantity(price, maxEnv)
  }

  /** No order is ever decided without the exact setting "true". */
  lemma NoOrderWithoutSetting(price: string, autoOrderEnv: Option<string>, maxEnv: Option<int>)
    requires autoOrderEnv != Some("true")
    ensures !HandleStockAvailable(price, autoOrderEnv, maxEnv).Order?
  {
  }

  class MonitoringScript {
    var isMonitoring: bool
    /** The availability at the previous successful check; `None` before the first. */
    var lastStatus: Option<bool>

    constructor ()
      ensures !isMonitoring && lastStatus == None
    {
      isMonitoring := false;
      lastStatus := None;
    }

    /**
     * `checkMepiformStatus` on the scraper's answer: a thrown check changes
     * nothing; otherwise the reading is recorded, and a change from a seen
     * "unavailable" to "available" runs the ordering path.
     */
    method CheckMepiformStatus(check: Result<ProductResult>, autoOrderEnv: Option<string>, maxEnv: Option<int>)
      returns (available: Option<bool>, decision: Option<Decision>)
      modifies this`lastStatus
      ensures check.Err? ==> available == None && decision == None && lastStatus == old(lastStatus)
      ensures check.Ok? ==> available == Some(IsAvailableText(check.value.stockStatus)) && lastStatus == available
      ensures decision.Some? <==> check.Ok? && old(lastStatus) == Some(false) && IsAvailableText(check.value.stockStatus)
      ensures decision.Some? ==> decision.value == HandleStockAvailable(check.value.price, autoOrderEnv, maxEnv)
    {
      if check.Err? {
        return None, None;
      }
      var result := check.value;
      var isAvailable := AnalyzeSwedishStockStatus(result.stockStatus);
      decision := None;
      assert lastStatus != None && lastStatus != Some(isAvailable) && isAvailable
             <==> lastStatus == Some(false) && isAvailable by {
        match lastStatus
        case None =>
        case Some(_) =>
      }
      if lastStatus != None && lastStatus != Some(isAvailable) {
        if isAvailable {
          decision := Some(HandleStockAvailable(result.price, autoOrderEnv, maxEnv));
        }
      }
      lastStatus := Some(isAvailable);
      available := Some(isAvailable);
    }

    /** `startMonitoring`: refused while running; else sets the flag and runs the first check, whose ordering path is taken as in any later check. */
    method StartMonitoring(first: Result<ProductResult>, autoOrderEnv: Option<string>, maxEnv: Option<int>)
      returns (started: bool, decision: Option<Decision>)
      modifies this`isMonitoring, this`lastStatus
      ensures started == !old(isMonitoring) && isMonitoring
      ensures !(started && first.Ok?) ==> lastStatus == old(lastStatus) && decision == None
      ensures started && first.Ok? ==> lastStatus == Some(IsAvailableText(first.value.stockStatus))
      ensures decision.Some? <==>
                started && first.Ok? && old(lastStatus) == Some(false) && IsAvailableText(first.value.stockStatus)
      ensures decision.Some? ==> decision.value == HandleStockAvailable(first.value.price, autoOrderEnv, maxEnv)
    {
      if isMonitoring {
        return false, None;
      }
      isMonitoring := true;
      var _, d := CheckMepiformStatus(first, autoOrderEnv, maxEnv);
      decision := d;
      started := true;
    }

    /** `stopMonitoring`: does nothing when not running; else clears the flag. */
    method StopMonitoring() returns (stopped: bool)
      modifies this`isMonitoring
      ensures stopped == old(isMonitoring) && !isMonitoring
    {
      if !isMonitoring {
        return false;
      }
      isMonitoring := false;
      stopped := true;
    }
  }
}
