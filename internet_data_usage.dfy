/**
 * The command-line front end: the carrier registry, the zabbix item map,
 * `scraper_get` / `scraper_run`, and what each output mode produces from a
 * finished scrape (the zabbix value, the term password check, the InfluxDB
 * record). The HTTP exchanges a run makes are inputs, exactly as for
 * `Scraper.Go`.
 */
module InternetDataUsage {
  import opened Wrappers
  import opened PyText
  import opened Scrapers

  /** The `--http_user_agent` default of every subcommand. */
  const DefaultUserAgent := "Mozilla/5.0 (X11; Linux x86_64)"
  /** The `--carrier` default of the term and influxdb subcommands. */
  const DefaultCarrier := "telus_wireline"
  /** The `--carrier` default of the zabbix subcommand, as it is spelled there. */
  const ZabbixDefaultCarrier := "telus_wirel    ine"
  /** The `--item` default of the zabbix subcommand. */
  const ZabbixDefaultItem := "data_usage"

  /** Why a run ends with an error exit instead of output. */
  datatype RunError =
    | UnknownCarrier            // `get_carriers()[carrier]` raised KeyError in `scraper_get`
    | ScrapeFailed(fault: Fault) // `go` raised, or `_parse` exited
    | UnknownItem               // `get_carrier_items()[item]` raised KeyError
    | NoSuchAttribute           // `s.__dict__[...]` raised KeyError
    | NoStatistics              // reading `s.extended_stats` and the other statistics raised AttributeError

  // ---------------------------------------------------------------- registry

  /** `get_carriers`: command-line carrier key to scraper class. */
  function Carriers(): (r: map<string, Carrier>)
    ensures r.Keys == {"telus_wireline", "koodo_mobile"}
  {
    map["telus_wireline" := TelusWireline, "koodo_mobile" := KoodoMobile]
  }

  /** `get_carrier_items`: zabbix item key to the scraper attribute it prints. */
  function CarrierItems(): (r: map<string, string>)
    ensures r.Keys == {"data_usage", "data_plan_total", "data_use_unit", "plan"}
    ensures "days_remaining" !in r
  {
    map["data_usage" := "_data_usage",
        "data_plan_total" := "_data_plan_total",
        "data_use_unit" := "_data_usage_unit",
        "plan" := "_plan"]
  }

  /** The registry names every carrier, each through exactly one key. */
  lemma CarriersRegistry()
    ensures forall c: Carrier :: c in Carriers().Values
    ensures forall k1, k2 :: k1 in Carriers() && k2 in Carriers() && Carriers()[k1] == Carriers()[k2] ==> k1 == k2
  {
    forall c: Carrier
      ensures c in Carriers().Values
    {
      var k := if c == TelusWireline then "telus_wireline" else "koodo_mobile";
      assert k in Carriers() && Carriers()[k] == c;
    }
  }

  /**
   * The item map sends different items to different attributes, and every
   * attribute it names exists on a scraper from construction on.
   */
  lemma CarrierItemsMap(st: FieldState)
    ensures forall i1, i2 :: i1 in CarrierItems() && i2 in CarrierItems() && CarrierItems()[i1] == CarrierItems()[i2] ==> i1 == i2
    ensures forall i :: i in CarrierItems() ==> FieldAttr(st, CarrierItems()[i]).Some?
  {
  }

  /**
   * The term and influxdb default names a carrier; the zabbix default names
   * none; the default agent is the one header a scraper then sends.
   */
  lemma DefaultCarriers()
    ensures DefaultCarrier in Carriers() && Carriers()[DefaultCarrier] == TelusWireline
    ensures ZabbixDefaultCarrier !in Carriers()
    ensures ZabbixDefaultItem in CarrierItems()
    ensures HttpHeaders(DefaultUserAgent).Keys == {"user-agent"}
            && HttpHeaders(DefaultUserAgent)["user-agent"] == DefaultUserAgent
  {
  }

  // --------------------------------------------------------- scraping a key

  /** A fault inside `go` ends the run through `scraper_run`'s error exit (or `_parse`'s own). */
  function Exited(g: Result<Usage, Fault>): (r: Result<Usage, RunError>)
    ensures r.Ok? <==> g.Ok?
    ensures r.Ok? ==> r.value == g.value
    ensures r.Err? ==> r.error == ScrapeFailed(g.error)
  {
    match g
    case Ok(u) => Ok(u)
    case Err(f) => Err(ScrapeFailed(f))
  }

  /**
   * `scraper_get` followed by `scraper_run` on a fresh scraper: the base
   * fields the run leaves behind, or the error exit it takes.
   */
  function Scrape(key: string, login: LoginOutcome, response: Option<Page>): (r: Result<Usage, RunError>)
    ensures r == Err(UnknownCarrier) <==> key !in Carriers()
    ensures r.Ok? ==> key in Carriers() && login != SessionFailed && response.Some?
                      && Extract(Carriers()[key], response.value) == Ok(r.value)
    ensures key in Carriers() && login != SessionFailed && response.Some? ==>
              (r.Ok? <==> ParseOutcome(Carriers()[key], response.value).Ok?)
    ensures key in Carriers() && login != SessionFailed && response.None? ==> r == Err(ScrapeFailed(TransportError))
    ensures key in Carriers() && login == SessionFailed ==> r == Err(ScrapeFailed(MissingAttribute))
    ensures key in Carriers() && login != SessionFailed && response.Some? && Extract(Carriers()[key], response.value).Err? ==>
              r == Err(ScrapeFailed(ParseExit))
    ensures key in Carriers() && login != SessionFailed && response.Some? && Extract(Carriers()[key], response.value).Ok? && r.Err? ==>
              r == Err(ScrapeFailed(MissingDataUrl))
  {
    if key !in Carriers() then Err(UnknownCarrier)
    else Exited(GoOutcome(Carriers()[key], false, login, response))
  }

  /**
   * `scraper_get`: look the key up in the registry and construct that
   * carrier's scraper, or take the error exit when the key is unknown.
   */
  method ScraperGet(key: string, username: string, password: string, userAgent: string)
    returns (r: Result<Scraper, RunError>)
    ensures r.Err? <==> key !in Carriers()
    ensures r.Err? ==> r.error == UnknownCarrier
    ensures r.Ok? ==> fresh(r.value) && r.value.Valid() && r.value.carrier == Carriers()[key]
                      && r.value.Fields() == Unassigned && !r.value.hasSession && r.value.sent == []
                      && r.value.loggedIn == None && r.value.loginFailed == None
                      && r.value.name == Name(r.value.carrier) && r.value.description == Description(r.value.carrier)
                      && r.value.urlLogin == LoginUrl(r.value.carrier) && r.value.urlData == DataUrl(r.value.carrier)
                      && r.value.postData == PostData(r.value.carrier, username, password)
                      && r.value.httpHeaders == HttpHeaders(userAgent)
  {
    if key !in Carriers() {
      return Err(UnknownCarrier);
    }
    var c := Carriers()[key];
    var s := new Scraper(c, ProfileOf(c, username, password, userAgent));
    return Ok(s);
  }

  /** `scraper_run`: `go`, with any fault turned into the error exit. */
  method ScraperRun(s: Scraper, login: LoginOutcome, response: Option<Page>) returns (r: Result<Usage, RunError>)
    requires s.Valid()
    modifies s
    ensures s.Valid()
    ensures s.loggedIn == Some(true)
    ensures s.hasSession == (old(s.hasSession) || login != SessionFailed)
    ensures s.loginFailed == if login == PostCompleted then old(s.loginFailed) else Some(1)
    ensures s.sent == old(s.sent) + LoginRequests(login, s.urlLogin, s.postData, s.httpHeaders)
                      + (if s.hasSession then [Get(s.urlData, s.httpHeaders)] else [])
    ensures s.Fields() == if s.hasSession && response.Some? then ParseEffect(s.carrier, response.value, old(s.Fields()))
                          else old(s.Fields())
    ensures r == Exited(GoOutcome(s.carrier, old(s.hasSession), login, response))
    ensures r.Ok? ==> s.Snapshot() == Some(r.value)
  {
    var outcome := s.Go(login, response);
    if outcome.Failed? {
      return Err(ScrapeFailed(outcome.fault));
    }
    return Ok(s.Snapshot().value);
  }

  // ----------------------------------------------------------------- zabbix

  /** What `print` writes for an attribute value: the text, or "None". None: the lookup raised KeyError. */
  function Printed(v: Option<Option<string>>): (r: Result<string, RunError>)
    ensures r.Err? <==> v.None?
    ensures v.Some? && v.value.Some? ==> r == Ok(v.value.value)
  {
    match v
    case None => Err(NoSuchAttribute)
    case Some(None) => Ok("None")
    case Some(Some(t)) => Ok(t)
  }

  /**
   * `output_zabbix`: scrape, then print the one attribute the item names,
   * read from the scraper's state after the run.
   */
  function ZabbixReport(key: string, item: string, login: LoginOutcome, response: Option<Page>): (r: Result<string, RunError>)
    ensures Scrape(key, login, response).Err? ==> r == Err(Scrape(key, login, response).error)
    ensures r.Ok? ==> Scrape(key, login, response).Ok? && item in CarrierItems()
  {
    match Scrape(key, login, response)
    case Err(e) => Err(e)
    case Ok(_) =>
      if item !in CarrierItems() then Err(UnknownItem)
      else Printed(FieldAttr(ParseEffect(Carriers()[key], response.value, Unassigned), CarrierItems()[item]))
  }

  /**
   * After a successful scrape each item prints exactly its own field of the
   * extracted usage, and `days_remaining` is refused.
   */
  lemma {:induction false} ZabbixItems(key: string, login: LoginOutcome, response: Option<Page>)
    requires Scrape(key, login, response).Ok?
    ensures var u := Scrape(key, login, response).value;
            && ZabbixReport(key, "data_usage", login, response) == Ok(u.used)
            && ZabbixReport(key, "data_plan_total", login, response) == Ok(u.total)
            && ZabbixReport(key, "data_use_unit", login, response) == Ok(u.unit)
            && ZabbixReport(key, "plan", login, response) == Ok(u.plan)
            && ZabbixReport(key, "days_remaining", login, response) == Err(UnknownItem)
  {
    ParseEffectOnSuccess(Carriers()[key], response.value, Unassigned);
  }

  /** The two numeric items print digit strings only. */
  lemma ZabbixNumericItems(key: string, login: LoginOutcome, response: Option<Page>)
    requires Scrape(key, login, response).Ok?
    ensures var d, t := ZabbixReport(key, "data_usage", login, response), ZabbixReport(key, "data_plan_total", login, response);
            d.Ok? && t.Ok? && AllDigits(d.value) && AllDigits(t.value)
  {
    ZabbixItems(key, login, response);
    ExtractFields(Carriers()[key], response.value);
  }

  /** Left at its default, the zabbix carrier reaches the unknown-carrier exit whatever else happens. */
  lemma ZabbixDefaultCarrierFails(item: string, login: LoginOutcome, response: Option<Page>)
    ensures ZabbixReport(ZabbixDefaultCarrier, item, login, response) == Err(UnknownCarrier)
  {
    DefaultCarriers();
  }

  /** `output_zabbix` over the objects it creates. */
  method OutputZabbix(key: string, item: string, username: string, password: string, userAgent: string,
                      login: LoginOutcome, response: Option<Page>) returns (r: Result<string, RunError>)
    ensures r == ZabbixReport(key, item, login, response)
  {
    var got := ScraperGet(key, username, password, userAgent);
    if got.Err? {
      return Err(got.error);
    }
    var s := got.value;
    var run := ScraperRun(s, login, response);
    if run.Err? {
      return Err(run.error);
    }
    if item !in CarrierItems() {
      return Err(UnknownItem);
    }
    r := Printed(s.Attribute(CarrierItems()[item]));
  }

  // ------------------------------------------------------------------- term

  /** The password `output_term` uses: the `--password` argument, else what the prompt read. */
  function TermPassword(argument: Option<string>, prompted: string): (r: string)
    ensures argument.Some? ==> r == argument.value
    ensures argument.None? ==> r == prompted
  {
    if argument.None? then prompted else argument.value
  }

  /**
   * `output_term` up to `print_all`: a password of length zero is only
   * warned about (`warned`); the scraper is built with it and run all the
   * same.
   */
  method OutputTerm(key: string, username: string, argument: Option<string>, prompted: string, userAgent: string,
                    login: LoginOutcome, response: Option<Page>) returns (warned: bool, r: Result<Usage, RunError>)
    ensures warned <==> TermPassword(argument, prompted) == []
    ensures r == Scrape(key, login, response)
  {
    var password := TermPassword(argument, prompted);
    warned := |password| < 1;
    var got := ScraperGet(key, username, password, userAgent);
    if got.Err? {
      return warned, Err(got.error);
    }
    r := ScraperRun(got.value, login, response);
  }

  // --------------------------------------------------------------- influxdb

  /**
   * The statistics `output_influxdb` reads off the scraper. Their values
   * are carried as they are; which of the two record shapes is built is
   * decided by `extendedStats` alone.
   */
  datatype InfluxStats<V> = InfluxStats(extendedStats: bool, dataUsageTotal: V, dataPlanTotal: V, planTitle: V,
                                        dataPlanDaysLeft: V, dataUsagePct: V, dataUsageDown: V, dataUsageUp: V)

  /** One point of `json_body`. */
  datatype Point<V> = Point(fields: map<string, V>, measurement: string, tags: map<string, string>)

  /** The fields of every record. */
  function BaseFieldKeys(): set<string> {
    {"data_usage_total", "data_plan_total", "plan_title", "data_plan_days_left", "data_usage_pct"}
  }

  /** The fields only an extended record has. */
  function ExtendedFieldKeys(): set<string> {
    {"data_usage_down", "data_usage_up"}
  }

  /** `json_body` for a scraper named `name`. */
  function JsonBody<V>(name: string, stats: InfluxStats<V>): (r: seq<Point<V>>)
    ensures |r| == 1
    ensures r[0].measurement == name + "_usage" && r[0].tags == map["carrier" := name]
  {
    var base := map["data_usage_total" := stats.dataUsageTotal,
                    "data_plan_total" := stats.dataPlanTotal,
                    "plan_title" := stats.planTitle,
                    "data_plan_days_left" := stats.dataPlanDaysLeft,
                    "data_usage_pct" := stats.dataUsagePct];
    if !stats.extendedStats then
      [Point(base, name + "_usage", map["carrier" := name])]
    else
      [Point(base["data_usage_down" := stats.dataUsageDown]["data_usage_up" := stats.dataUsageUp],
             name + "_usage", map["carrier" := name])]
  }

  /**
   * The record holds the five base fields, plus the two extended ones
   * exactly when `extendedStats` is set, each carrying its statistic.
   */
  lemma JsonBodyFields<V>(name: string, stats: InfluxStats<V>)
    ensures var f := JsonBody(name, stats)[0].fields;
            && f.Keys == BaseFieldKeys() + (if stats.extendedStats then ExtendedFieldKeys() else {})
            && f["data_usage_total"] == stats.dataUsageTotal && f["data_plan_total"] == stats.dataPlanTotal
            && f["plan_title"] == stats.planTitle && f["data_plan_days_left"] == stats.dataPlanDaysLeft
            && f["data_usage_pct"] == stats.dataUsagePct
            && (stats.extendedStats ==> f["data_usage_down"] == stats.dataUsageDown && f["data_usage_up"] == stats.dataUsageUp)
  {
  }

  /** The shape of the record depends on the extended flag only, not on the name or the values. */
  lemma JsonBodyShape<V>(n1: string, s1: InfluxStats<V>, n2: string, s2: InfluxStats<V>)
    requires s1.extendedStats == s2.extendedStats
    ensures JsonBody(n1, s1)[0].fields.Keys == JsonBody(n2, s2)[0].fields.Keys
  {
    JsonBodyFields(n1, s1);
    JsonBodyFields(n2, s2);
  }

  /**
   * `output_influxdb` after the client is opened: scrape, then build the
   * record from the scraper's statistics (None: the scraper has no such
   * attributes, and reading them raises AttributeError).
   */
  function InfluxReport<V>(key: string, login: LoginOutcome, response: Option<Page>, stats: Option<InfluxStats<V>>)
    : (r: Result<seq<Point<V>>, RunError>)
    ensures Scrape(key, login, response).Err? ==> r == Err(Scrape(key, login, response).error)
    ensures Scrape(key, login, response).Ok? && stats.None? ==> r == Err(NoStatistics)
    ensures Scrape(key, login, response).Ok? && stats.Some? ==> r == Ok(JsonBody(Name(Carriers()[key]), stats.value))
    ensures r.Ok? ==> |r.value| == 1 && r.value[0].measurement == Name(Carriers()[key]) + "_usage"
                      && r.value[0].tags == map["carrier" := Name(Carriers()[key])]
  {
    match Scrape(key, login, response)
    case Err(e) => Err(e)
    case Ok(_) =>
      if stats.None? then Err(NoStatistics)
      else Ok(JsonBody(Name(Carriers()[key]), stats.value))
  }

  /** `output_influxdb` over the objects it creates; the write itself is not modelled. */
  method OutputInfluxdb<V>(key: string, username: string, password: string, userAgent: string,
                           login: LoginOutcome, response: Option<Page>, stats: Option<InfluxStats<V>>)
    returns (r: Result<seq<Point<V>>, RunError>)
    ensures r == InfluxReport(key, login, response, stats)
  {
    var got := ScraperGet(key, username, password, userAgent);
    if got.Err? {
      return Err(got.error);
    }
    var s := got.value;
    var run := ScraperRun(s, login, response);
    if run.Err? {
      return Err(run.error);
    }
    if stats.None? {
      return Err(NoStatistics);
    }
    return Ok(JsonBody(s.name, stats.value));
  }

  /** The Telus record is measured as `TelusWireline_usage`: the scraper's name, not the registry key. */
  lemma TelusMeasurement<V>(login: LoginOutcome, response: Option<Page>, stats: Option<InfluxStats<V>>)
    requires InfluxReport(DefaultCarrier, login, response, stats).Ok?
    ensures InfluxReport(DefaultCarrier, login, response, stats).value[0].measurement == "TelusWireline_usage"
  {
    DefaultCarriers();
  }
}
