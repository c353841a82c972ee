/**
 * The settings object of src/config/config.js: sections read from the
 * environment with defaults, a registry of tracked products, the weekday
 * active-hours window that picks the check interval, a validation report,
 * and an export that hides the password.
 */
module Configuration {
  import opened Wrappers
  import opened Calendar

  /** A product field: the JSON values a product record holds. */
  datatype Value = VStr(s: string) | VNum(n: int) | VBool(b: bool) | VNull | VUndefined

  /** JavaScript truthiness. */
  predicate Truthy(v: Value)
  {
    match v
    case VStr(s) => s != ""
    case VNum(n) => n != 0
    case VBool(b) => b
    case VNull => false
    case VUndefined => false
  }

  /** A product is an open record: whatever fields its caller gave it. */
  type Product = map<string, Value>

  /** `product[field]`: an absent field reads as undefined. */
  function Field(p: Product, name: string): (v: Value)
    ensures name !in p ==> v == VUndefined
    ensures name in p ==> v == p[name]
  {
    if name in p then p[name] else VUndefined
  }

  datatype Website = Website(loginUrl: string, username: string, password: string, selectors: map<string, string>)
  datatype Monitoring = Monitoring(activeStartHour: int, activeEndHour: int, timezone: string, checkInterval: nat, passiveInterval: nat)
  datatype Conditions = Conditions(keywords: seq<string>, minStock: nat, maxPrice: nat)
  datatype Orders = Orders(
    autoOrderEnabled: bool, maxOrderAmount: int, quantityPerOrder: int, maxDailyOrders: nat,
    confirmBeforeOrder: bool, autoCheckout: bool, conditions: Conditions)
  datatype Notifications = Notifications(email: string, smtpHost: string, smtpPort: int, smtpUser: string, smtpPass: string)
  datatype Compliance = Compliance(
    respectRobotsTxt: bool, minRequestDelay: nat, maxConcurrentRequests: nat, userAgent: string, honorRateLimit: bool)

  datatype Settings = Settings(
    website: Website, monitoring: Monitoring, orders: Orders, products: seq<Product>,
    notifications: Notifications, compliance: Compliance)

  /**
   * The environment: its text variables, and the variables that `parseInt`
   * or `parseFloat` read as a number (a variable absent here reads as NaN).
   */
  datatype Env = Env(text: map<string, string>, numbers: map<string, int>)

  /** `process.env.NAME || fallback`. */
  function EnvText(env: Env, name: string, fallback: string): (r: string)
    ensures r == fallback || (name in env.text && r == env.text[name] && r != "")
  {
    if name in env.text && env.text[name] != "" then env.text[name] else fallback
  }

  /** `parseInt(process.env.NAME) || fallback`: NaN and 0 both give the fallback. */
  function EnvNumber(env: Env, name: string, fallback: int): (r: int)
    ensures name !in env.numbers ==> r == fallback
    ensures name in env.numbers ==> r == if env.numbers[name] == 0 then fallback else env.numbers[name]
  {
    if name in env.numbers && env.numbers[name] != 0 then env.numbers[name] else fallback
  }

  /** The page selectors: five from the environment with defaults, five fixed. */
  function Selectors(env: Env): map<string, string>
  {
    map[
      "username" := EnvText(env, "USERNAME_SELECTOR", "#j_username"),
      "password" := EnvText(env, "PASSWORD_SELECTOR", "#j_password"),
      "loginButton" := EnvText(env, "LOGIN_BUTTON_SELECTOR", "button[type=\"submit\"]"),
      "loginSuccess" := EnvText(env, "LOGIN_SUCCESS_SELECTOR", ".logout, .dashboard, .account-info"),
      "stock" := EnvText(env, "STOCK_SELECTOR", ".stock-status, .availability, .in-stock, .lagerstatus"),
      "addToCart" := ".add-to-cart, [data-testid=\"add-to-cart\"]",
      "quantity" := ".quantity-input, [name=\"quantity\"]",
      "cart" := ".cart, [data-testid=\"cart\"]",
      "checkout" := ".checkout, [data-testid=\"checkout\"]",
      "placeOrder" := ".place-order, [data-testid=\"place-order\"]"]
  }

  /** The settings the constructor builds. */
  function InitialSettings(env: Env): (s: Settings)
    ensures s.products == []
    ensures s.monitoring.activeStartHour == EnvNumber(env, "ACTIVE_START_HOUR", 7)
    ensures s.monitoring.activeEndHour == EnvNumber(env, "ACTIVE_END_HOUR", 19)
    ensures s.monitoring.checkInterval == 5 && s.monitoring.passiveInterval == 30
  {
    Settings(
      Website(
        EnvText(env, "LOGIN_URL", ""), EnvText(env, "USERNAME", ""), EnvText(env, "PASSWORD", ""),
        Selectors(env)),
      Monitoring(
        EnvNumber(env, "ACTIVE_START_HOUR", 7), EnvNumber(env, "ACTIVE_END_HOUR", 19),
        EnvText(env, "TIMEZONE", "America/New_York"), 5, 30),
      Orders(
        "AUTO_ORDER_ENABLED" in env.text && env.text["AUTO_ORDER_ENABLED"] == "true",
        EnvNumber(env, "MAX_ORDER_AMOUNT", 500), EnvNumber(env, "QUANTITY_PER_ORDER", 1),
        10, true, false, Conditions([], 1, 500)),
      [],
      Notifications(
        EnvText(env, "NOTIFICATION_EMAIL", ""), EnvText(env, "SMTP_HOST", "smtp.gmail.com"),
        EnvNumber(env, "SMTP_PORT", 587), EnvText(env, "SMTP_USER", ""), EnvText(env, "SMTP_PASS", "")),
      Compliance(true, 2000, 1, "Health Product Monitor 1.0", true))
  }

  /** The sections an `updateConfig` argument names; an absent one is kept. */
  datatype ConfigUpdate = ConfigUpdate(
    website: Option<Website>, monitoring: Option<Monitoring>, orders: Option<Orders>,
    products: Option<seq<Product>>, notifications: Option<Notifications>, compliance: Option<Compliance>)

  const RequiredFields: seq<string> := ["name", "url", "stockSelector"]

  /** The first required field that is missing or falsy. */
  function FirstMissing(p: Product): (f: Option<string>)
    ensures f.None? <==> forall i :: 0 <= i < |RequiredFields| ==> Truthy(Field(p, RequiredFields[i]))
    ensures f.Some? ==> exists i :: 0 <= i < |RequiredFields| && f.value == RequiredFields[i]
                          && !Truthy(Field(p, f.value)) && forall j :: 0 <= j < i ==> Truthy(Field(p, RequiredFields[j]))
  {
    assert RequiredFields[0] == "name" && RequiredFields[1] == "url" && RequiredFields[2] == "stockSelector";
    if !Truthy(Field(p, "name")) then Some("name")
    else if !Truthy(Field(p, "url")) then Some("url")
    else if !Truthy(Field(p, "stockSelector")) then Some("stockSelector")
    else None
  }

  /**
   * The record `addProduct` stores: generated defaults overridden by every
   * field of the argument. The default price reads `orders.maxPrice`, which
   * the settings do not have, so it is undefined.
   */
  function NewProduct(p: Product, id: string, addedAt: string): (r: Product)
    ensures forall k :: k in p ==> k in r && r[k] == p[k]
    ensures r.Keys == p.Keys + {"id", "name", "url", "stockSelector", "maxPrice", "enabled", "addedAt"}
    ensures "id" !in p ==> r["id"] == VStr(id)
    ensures "addedAt" !in p ==> r["addedAt"] == VStr(addedAt)
    ensures "enabled" !in p ==> r["enabled"] == VBool(true)
    ensures r["maxPrice"] == Field(p, "maxPrice")
  {
    var defaults := map[
      "id" := VStr(id),
      "name" := Field(p, "name"),
      "url" := Field(p, "url"),
      "stockSelector" := Field(p, "stockSelector"),
      "maxPrice" := if Truthy(Field(p, "maxPrice")) then Field(p, "maxPrice") else VUndefined,
      "enabled" := VBool(Field(p, "enabled") != VBool(false)),
      "addedAt" := VStr(addedAt)];
    defaults + p
  }

  /** `p.id`. */
  function IdOf(p: Product): Value
  {
    Field(p, "id")
  }

  /** `findIndex(p => p.id === productId)` from position `k`. */
  function FindIndexFrom(ps: seq<Product>, id: Value, k: nat): (r: Option<nat>)
    requires k <= |ps|
    ensures r.Some? ==> k <= r.value < |ps| && IdOf(ps[r.value]) == id
                        && forall j :: k <= j < r.value ==> IdOf(ps[j]) != id
    ensures r.None? ==> forall j :: k <= j < |ps| ==> IdOf(ps[j]) != id
    decreases |ps| - k
  {
    if k == |ps| then None
    else if IdOf(ps[k]) == id then Some(k)
    else FindIndexFrom(ps, id, k + 1)
  }

  function FindIndex(ps: seq<Product>, id: Value): (r: Option<nat>)
    ensures r.Some? ==> r.value < |ps| && IdOf(ps[r.value]) == id && forall j :: 0 <= j < r.value ==> IdOf(ps[j]) != id
    ensures r.None? ==> forall j :: 0 <= j < |ps| ==> IdOf(ps[j]) != id
  {
    FindIndexFrom(ps, id, 0)
  }

  /** A product added under a fresh id is the one a later removal by that id takes out, restoring the list. */
  lemma RemoveUndoesAdd(ps: seq<Product>, p: Product)
    requires forall j :: 0 <= j < |ps| ==> IdOf(ps[j]) != IdOf(p)
    ensures FindIndex(ps + [p], IdOf(p)) == Some(|ps|)
    ensures (ps + [p])[..|ps|] + (ps + [p])[|ps| + 1..] == ps
  {
    var r := FindIndex(ps + [p], IdOf(p));
    assert (ps + [p])[|ps|] == p;
    assert (ps + [p])[..|ps|] == ps;
  }

  /** Removal by id keeps the other products in order and drops exactly the first match. */
  lemma RemoveKeepsOthers(ps: seq<Product>, id: Value, i: nat)
    requires FindIndex(ps, id) == Some(i)
    ensures var rest := ps[..i] + ps[i + 1..];
            |rest| == |ps| - 1
            && (forall j :: 0 <= j < i ==> rest[j] == ps[j])
            && (forall j :: i <= j < |rest| ==> rest[j] == ps[j + 1])
            && multiset(rest) + multiset{ps[i]} == multiset(ps)
  {
    assert ps == ps[..i] + [ps[i]] + ps[i + 1..];
  }

  datatype Validation = Validation(valid: bool, errors: seq<string>)

  const LoginUrlRequired := "Login URL is required"
  const CredentialsRequired := "Username and password are required"
  const ProductRequired := "At least one product must be configured"

  /** `exportConfig`'s mask. */
  const Hidden := "***HIDDEN***"

  /** The position of each error in the fixed order in which the checks run. */
  function ErrorRank(e: string): nat
  {
    if e == LoginUrlRequired then 0 else if e == CredentialsRequired then 1 else 2
  }

  class Config {
    var settings: Settings

    constructor (env: Env)
      ensures settings == InitialSettings(env)
    {
      settings := InitialSettings(env);
    }

    /** `updateConfig`: every section the argument names replaces the old one whole; the others stay. */
    method UpdateConfig(update: ConfigUpdate) returns (ok: bool)
      modifies this
      ensures ok
      ensures settings.website == update.website.GetOr(old(settings.website))
      ensures settings.monitoring == update.monitoring.GetOr(old(settings.monitoring))
      ensures settings.orders == update.orders.GetOr(old(settings.orders))
      ensures settings.products == update.products.GetOr(old(settings.products))
      ensures settings.notifications == update.notifications.GetOr(old(settings.notifications))
      ensures settings.compliance == update.compliance.GetOr(old(settings.compliance))
    {
      settings := Settings(
        update.website.GetOr(settings.website),
        update.monitoring.GetOr(settings.monitoring),
        update.orders.GetOr(settings.orders),
        update.products.GetOr(settings.products),
        update.notifications.GetOr(settings.notifications),
        update.compliance.GetOr(settings.compliance));
      ok := true;
    }

    /**
     * `addProduct`: the required fields are checked in order and the first
     * missing one is reported; otherwise the new record is appended.
     */
    method AddProduct(p: Product, id: string, addedAt: string) returns (r: Result<Product>)
      modifies this
      ensures r.Err? <==> FirstMissing(p).Some?
      ensures r.Err? ==> r.message == "Missing required field: " + FirstMissing(p).value && settings == old(settings)
      ensures r.Ok? ==> r.value == NewProduct(p, id, addedAt)
                        && settings == old(settings).(products := old(settings.products) + [r.value])
    {
      var i := 0;
      while i < |RequiredFields|
        invariant 0 <= i <= |RequiredFields|
        invariant forall j :: 0 <= j < i ==> Truthy(Field(p, RequiredFields[j]))
      {
        if !Truthy(Field(p, RequiredFields[i])) {
          return Err("Missing required field: " + RequiredFields[i]);
        }
        i := i + 1;
      }
      var added := NewProduct(p, id, addedAt);
      settings := settings.(products := settings.products + [added]);
      r := Ok(added);
    }

    /** `removeProduct`: the first product with the id is cut out and returned; without one, an error and no change. */
    method RemoveProduct(id: Value) returns (r: Result<Product>)
      modifies this
      ensures var ps := old(settings.products);
              match FindIndex(ps, id)
              case None => r == Err("Product not found") && settings == old(settings)
              case Some(i) => r == Ok(ps[i]) && settings == old(settings).(products := ps[..i] + ps[i + 1..])
    {
      var index := FindIndex(settings.products, id);
      if index.None? {
        return Err("Product not found");
      }
      var i := index.value;
      var removed := settings.products[i];
      settings := settings.(products := settings.products[..i] + settings.products[i + 1..]);
      r := Ok(removed);
    }

    /**
     * `updateProduct`: the updates and an `updatedAt` stamp are merged into
     * the first product with the id; without one, an error and no change.
     */
    method UpdateProduct(id: Value, updates: Product, updatedAt: string) returns (r: Result<Product>)
      modifies this
      ensures var ps := old(settings.products);
              match FindIndex(ps, id)
              case None => r == Err("Product not found") && settings == old(settings)
              case Some(i) =>
                r.Ok? && settings == old(settings).(products := ps[i := r.value])
                && r.value.Keys == ps[i].Keys + updates.Keys + {"updatedAt"}
                && r.value["updatedAt"] == VStr(updatedAt)
                && (forall k :: k in updates && k != "updatedAt" ==> r.value[k] == updates[k])
                && (forall k :: k in ps[i] && k !in updates && k != "updatedAt" ==> r.value[k] == ps[i][k])
    {
      var index := FindIndex(settings.products, id);
      if index.None? {
        return Err("Product not found");
      }
      var i := index.value;
      var merged := settings.products[i] + updates + map["updatedAt" := VStr(updatedAt)];
      settings := settings.(products := settings.products[i := merged]);
      r := Ok(merged);
    }

    /** `isWithinActiveHours`: never on Saturday or Sunday; else between the configured hours. */
    predicate IsWithinActiveHours(now: nat)
      reads this
    {
      var day := WeekdayOf(DayOf(now));
      if day == 0 || day == 6 then false
      else settings.monitoring.activeStartHour <= HourOf(now) < settings.monitoring.activeEndHour
    }

    /** `getCheckInterval`: the short interval in active hours, the long one otherwise. */
    function GetCheckInterval(now: nat): (minutes: nat)
      reads this
      ensures minutes == settings.monitoring.checkInterval || minutes == settings.monitoring.passiveInterval
      ensures IsWithinActiveHours(now) ==> minutes == settings.monitoring.checkInterval
      ensures IsWeekend(DayOf(now)) ==> minutes == settings.monitoring.passiveInterval
    {
      if IsWithinActiveHours(now) then settings.monitoring.checkInterval else settings.monitoring.passiveInterval
    }

    /** `validateConfiguration`: an error per failed check, in the order the checks run. */
    function ValidateConfiguration(): (v: Validation)
      reads this
      ensures v.valid <==> |v.errors| == 0
      ensures v.valid <==> settings.website.loginUrl != "" && settings.website.username != ""
                           && settings.website.password != "" && |settings.products| > 0
      ensures LoginUrlRequired in v.errors <==> settings.website.loginUrl == ""
      ensures CredentialsRequired in v.errors <==> settings.website.username == "" || settings.website.password == ""
      ensures ProductRequired in v.errors <==> |settings.products| == 0
      ensures forall i, j :: 0 <= i < j < |v.errors| ==> ErrorRank(v.errors[i]) < ErrorRank(v.errors[j])
    {
      var errors :=
        (if settings.website.loginUrl == "" then [LoginUrlRequired] else [])
        + (if settings.website.username == "" || settings.website.password == "" then [CredentialsRequired] else [])
        + (if |settings.products| == 0 then [ProductRequired] else []);
      if |errors| > 0 then Validation(false, errors) else Validation(true, [])
    }

    /** `exportConfig`: a copy whose password is masked; putting the password back gives the settings. */
    function ExportConfig(): (e: Settings)
      reads this
      ensures e.website.password == Hidden
      ensures e.(website := e.website.(password := settings.website.password)) == settings
    {
      settings.(website := settings.website.(password := Hidden))
    }
  }
}
