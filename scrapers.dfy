/**
 * The carrier usage scrapers: the two provider profiles (fixed endpoints and
 * login payloads embedding the credentials), the field extraction that
 * `_parse` performs on the usage page, and the scraper object whose `go`
 * runs login, page fetch and parse in that order.
 *
 * The HTTP session is abstract: a login attempt either fails to open the
 * session, opens it and has the POST raise, or completes; a GET either raises
 * or returns a page. The page itself is abstract too: for each element the
 * parsers locate, the text of that element's `.string`, if any.
 */
module Scrapers {
  import opened Wrappers
  import opened PyText

  datatype Carrier = TelusWireline | KoodoMobile

  /** What one BeautifulSoup locator chain yields. */
  datatype Located =
    | Missing          // some `find(...)` or child tag in the chain is None: the next access raises
    | NoString         // the element exists but its `.string` is None
    | Text(s: string)  // the element's `.string`

  /**
   * The located elements of a fetched usage page.
   * planHeading: `find(class_="usage-plan-header usage-type-header").h2.string`
   * cardSpan:    `find(class_="usage-card-info").span.string`
   * used:        `find(class_="used").string`
   * billCycleDays: `find(class_="meters-bill-cycle").p.strong.string` (read by Telus)
   * recordsDays:   `find(class_="records-header-info").strong.string` (read by Koodo)
   * chartDataUrl: the `data-url` attribute of `find(class_="usage-bar-chart mobile-chart")
   *               .find(class_="item visually-hidden")`, None when any link of that chain is absent
   */
  datatype Page = Page(planHeading: Located, cardSpan: Located, used: Located,
                       billCycleDays: Located, recordsDays: Located,
                       chartDataUrl: Option<string>)

  /** Why a step of the run raised or exited. */
  datatype Fault =
    | MissingAttribute  // AttributeError: `_logged_in` or the session `s` was never set
    | NotLoggedIn       // `raise Exception("Not logged in")`
    | TransportError    // the GET for the usage page raised
    | ParseExit         // `sys.exit("Unable to parse: ...")` inside `_parse`
    | MissingDataUrl    // the Telus `data-url` lookup after the try block raised

  /** The base fields of a successful parse, as the digit-only strings the code stores. */
  datatype Usage = Usage(plan: string, unit: string, used: string, total: string, daysLeft: string)

  /** The values of the attributes `_parse` assigns, `None` while unassigned. */
  datatype FieldState = FieldState(plan: Option<string>, dataUsageUnit: Option<string>,
                                   dataUsage: Option<string>, dataPlanTotal: Option<string>,
                                   daysLeft: Option<string>, jsonUrl: Option<string>)

  const Unassigned := FieldState(None, None, None, None, None, None)

  /**
   * `__dict__[attr]` restricted to the usage attributes: the four that
   * `__init__` sets exist from the start (their value may be None);
   * `_days_left` and `_json_url` exist only once `_parse` has assigned them.
   * None stands for the KeyError of an attribute that does not exist.
   */
  function FieldAttr(st: FieldState, attr: string): (r: Option<Option<string>>)
    ensures attr in {"_plan", "_data_usage_unit", "_data_usage", "_data_plan_total"} ==> r.Some?
    ensures r.Some? ==> attr in {"_plan", "_data_usage_unit", "_data_usage", "_data_plan_total", "_days_left", "_json_url"}
    ensures attr == "_days_left" ==> (r.Some? <==> st.daysLeft.Some?)
  {
    if attr == "_plan" then Some(st.plan)
    else if attr == "_data_usage_unit" then Some(st.dataUsageUnit)
    else if attr == "_data_usage" then Some(st.dataUsage)
    else if attr == "_data_plan_total" then Some(st.dataPlanTotal)
    else if attr == "_days_left" && st.daysLeft.Some? then Some(st.daysLeft)
    else if attr == "_json_url" && st.jsonUrl.Some? then Some(st.jsonUrl)
    else None
  }

  const TelusOrigin := "https://www.telus.com"

  // ---------------------------------------------------------------- profiles

  function Name(c: Carrier): string {
    match c
    case TelusWireline => "TelusWireline"
    case KoodoMobile => "KoodoMobile"
  }

  function Description(c: Carrier): string {
    match c
    case TelusWireline => "Telus Wireline Services (Internet + TTV)"
    case KoodoMobile => "Koodo Wireless Services"
  }

  function LoginUrl(c: Carrier): string {
    match c
    case TelusWireline => "https://www.telus.com/sso/UI/Login?realm=telus&service=telus&locale=en"
    case KoodoMobile => "https://secure.koodomobile.com/sso/UI/Login?realm=koodo"
  }

  function DataUrl(c: Carrier): string {
    match c
    case TelusWireline => "https://www.telus.com/my-account/usage/overview/usage?INTCMP=USSLeftNavLnkUsage"
    case KoodoMobile => "https://selfserveaccount.koodomobile.com/my-account/usage/overview/usage?INTCMP=KMNew_NavBar_Usage"
  }

  /** The fixed fields of each carrier's login form. */
  function FormConstants(c: Carrier): map<string, string> {
    match c
    case TelusWireline =>
      map["goto" := "https://www.telus.com/my-account/usage/overview/usage?INTCMP=USSLeftNavLnkUsage",
          "encoded" := "false",
          "service" := "telus",
          "realm" := "telus",
          "portal" := "telus",
          "userLanguage" := "en",
          "remember-me-checkbox[]" := ""]
    case KoodoMobile =>
      map["goto" := "https://identity.koodomobile.com:443/as/QVVKn/resume/as/authorization.ping",
          "encoded" := "false",
          "service" := "koodo",
          "realm" := "koodo",
          "portal" := "koodo",
          "locale" := "en",
          "check1" := "on",
          "Login.Submit" := "Log in"]
  }

  /** A login form with the credentials filled into `IDToken1` (username) and `IDToken2` (password). */
  function WithCredentials(form: map<string, string>, username: string, password: string): (r: map<string, string>)
    ensures r.Keys == form.Keys + {"IDToken1", "IDToken2"}
    ensures r["IDToken1"] == username && r["IDToken2"] == password
    ensures forall k :: k in form && k != "IDToken1" && k != "IDToken2" ==> r[k] == form[k]
  {
    form["IDToken1" := username]["IDToken2" := password]
  }

  /** The login payload built by each subclass constructor. */
  function PostData(c: Carrier, username: string, password: string): (r: map<string, string>)
    ensures "IDToken1" in r && r["IDToken1"] == username && "IDToken2" in r && r["IDToken2"] == password
  {
    WithCredentials(FormConstants(c), username, password)
  }

  /** The credentials land in `IDToken1` and `IDToken2` only; every other field is a constant of the carrier. */
  lemma PostDataCredentialsOnly(c: Carrier, u1: string, p1: string, u2: string, p2: string)
    ensures PostData(c, u1, p1).Keys == PostData(c, u2, p2).Keys
    ensures forall k :: k in PostData(c, u1, p1) && k != "IDToken1" && k != "IDToken2" ==>
                        PostData(c, u1, p1)[k] == PostData(c, u2, p2)[k]
  {
    var f := FormConstants(c);
    assert PostData(c, u1, p1) == WithCredentials(f, u1, p1);
    assert PostData(c, u2, p2) == WithCredentials(f, u2, p2);
  }

  /** Telus's login redirects (`goto`) to the very page it then fetches. */
  lemma TelusLoginGoesToUsagePage(username: string, password: string)
    ensures PostData(TelusWireline, username, password)["goto"] == DataUrl(TelusWireline)
  {
  }

  /** `http_headers`: exactly one header, the user agent. */
  function HttpHeaders(userAgent: string): (r: map<string, string>)
    ensures r.Keys == {"user-agent"} && r["user-agent"] == userAgent
  {
    map["user-agent" := userAgent]
  }

  /** The arguments a subclass constructor passes to `CarrierUsageScraper.__init__`. */
  datatype Profile = Profile(name: string, description: string, postData: map<string, string>,
                             urlLogin: string, urlData: string, httpHeaders: map<string, string>)

  /** `TelusWirelineScraper.__init__` and `KoodoMobileScraper.__init__`: the carrier's fixed profile around the caller's credentials. */
  function ProfileOf(c: Carrier, username: string, password: string, userAgent: string): Profile {
    Profile(Name(c), Description(c), PostData(c, username, password), LoginUrl(c), DataUrl(c), HttpHeaders(userAgent))
  }

  // ---------------------------------------------------------- field shaping

  /** `span.string.strip()[-2:]`. */
  function UnitOf(card: string): (r: string)
  {
    var t := Strip(card);
    PySlice(t, -2, |t|)
  }

  /** The unit is the last two characters of the stripped card text, or all of it when shorter. */
  lemma UnitIsLastTwo(card: string)
    ensures var t := Strip(card);
            var r := UnitOf(card);
            |r| == (if |t| < 2 then |t| else 2) && r == t[|t| - |r|..]
  {
  }

  /** `span.string.strip()[1:-2].strip()`. */
  function TotalTextOf(card: string): (r: string)
  {
    var t := Strip(card);
    Strip(PySlice(t, 1, -2))
  }

  /**
   * The total text is the stripped card text without its first and last two
   * characters, stripped again; it is empty when the stripped text has at
   * most three characters.
   */
  lemma TotalTextSlice(card: string)
    ensures var t := Strip(card);
            var r := TotalTextOf(card);
            (|t| <= 3 ==> r == []) && (|t| > 3 ==> IsStripOf(r, t[1..|t| - 2]))
  {
    var t := Strip(card);
    if |t| > 3 {
      assert PySlice(t, 1, -2) == t[1..|t| - 2];
      StripSpec(t[1..|t| - 2]);
    }
  }

  /** The days-left locator: the one place where the two parsers differ in what they read. */
  function DaysLocated(c: Carrier, p: Page): Located {
    match c
    case TelusWireline => p.billCycleDays
    case KoodoMobile => p.recordsDays
  }

  /**
   * The base fields the try block of `_parse` computes, or the exit it takes
   * when a located element is missing or has no string.
   */
  function Extract(c: Carrier, p: Page): (r: Result<Usage, Fault>)
    ensures r.Ok? <==> p.planHeading.Text? && p.cardSpan.Text? && p.used.Text? && DaysLocated(c, p).Text?
    ensures r.Err? ==> r.error == ParseExit
  {
    var days := DaysLocated(c, p);
    if p.planHeading.Text? && p.cardSpan.Text? && p.used.Text? && days.Text? then
      Ok(Usage(Strip(p.planHeading.s), UnitOf(p.cardSpan.s), KeepDigits(p.used.s),
               KeepDigits(TotalTextOf(p.cardSpan.s)), KeepDigits(days.s)))
    else
      Err(ParseExit)
  }

  /**
   * A successful extraction stores the plan heading without its surrounding
   * whitespace, the unit from the card text, and the digits of the used,
   * total and days-left texts, in their original order.
   */
  lemma ExtractFields(c: Carrier, p: Page)
    requires Extract(c, p).Ok?
    ensures var u := Extract(c, p).value;
            IsStripOf(u.plan, p.planHeading.s) && u.unit == UnitOf(p.cardSpan.s)
            && AllDigits(u.used) && AllDigits(u.total) && AllDigits(u.daysLeft)
            && u.used == KeepDigits(p.used.s) && u.total == KeepDigits(TotalTextOf(p.cardSpan.s))
            && u.daysLeft == KeepDigits(DaysLocated(c, p).s)
  {
    StripSpec(p.planHeading.s);
  }

  /**
   * The stored used, total and days-left strings hold each digit of the text
   * they came from, as often as that text does, and nothing else; an input
   * without digits gives the empty string, which is accepted.
   */
  lemma ExtractKeepsDigits(c: Carrier, p: Page, ch: char)
    requires Extract(c, p).Ok?
    ensures var u := Extract(c, p).value;
            multiset(u.used)[ch] == (if IsDigit(ch) then multiset(p.used.s)[ch] else 0)
            && multiset(u.daysLeft)[ch] == (if IsDigit(ch) then multiset(DaysLocated(c, p).s)[ch] else 0)
            && multiset(u.total)[ch] == (if IsDigit(ch) then multiset(TotalTextOf(p.cardSpan.s))[ch] else 0)
            && (u.used == [] <==> NoDigits(p.used.s))
  {
    KeepDigitsCount(p.used.s, ch);
    KeepDigitsCount(DaysLocated(c, p).s, ch);
    KeepDigitsCount(TotalTextOf(p.cardSpan.s), ch);
    KeepDigitsEmpty(p.used.s);
  }

  /**
   * What `_parse` as a whole reports to its caller: the try block's exit,
   * then, for Telus only, the `data-url` lookup that lies outside the try.
   */
  function ParseOutcome(c: Carrier, p: Page): (r: Result<Usage, Fault>)
    ensures r.Ok? <==> Extract(c, p).Ok? && (c == TelusWireline ==> p.chartDataUrl.Some?)
    ensures r.Ok? ==> r == Extract(c, p)
    ensures r.Err? && Extract(c, p).Ok? ==> c == TelusWireline && r.error == MissingDataUrl
    ensures Extract(c, p).Err? ==> r == Err(ParseExit)
  {
    match Extract(c, p)
    case Err(f) => Err(f)
    case Ok(u) => if c == TelusWireline && p.chartDataUrl.None? then Err(MissingDataUrl) else Ok(u)
  }

  /**
   * The attributes after the try block of `_parse` has run on `p` from the
   * state `st`, step by step: each assignment happens only if every lookup
   * before it succeeded. `used` and the days element may have a None
   * `.string` and still pass their own line; the exit then comes at the digit
   * filter that reads them.
   */
  function TryEffect(c: Carrier, p: Page, st: FieldState): (r: FieldState)
    ensures !p.planHeading.Text? ==> r == st
    ensures Extract(c, p).Ok? ==> r.plan.Some? && r.dataUsageUnit.Some? && r.dataUsage.Some?
                                  && r.dataPlanTotal.Some? && r.daysLeft.Some?
    ensures r.jsonUrl == st.jsonUrl
  {
    var days := DaysLocated(c, p);
    if !p.planHeading.Text? then st
    else
      var st1 := st.(plan := Some(Strip(p.planHeading.s)));
      if !p.cardSpan.Text? then st1
      else
        var st2 := st1.(dataUsageUnit := Some(UnitOf(p.cardSpan.s)));
        if p.used.Missing? || days.Missing? then st2
        else
          var st3 := st2.(dataPlanTotal := Some(KeepDigits(TotalTextOf(p.cardSpan.s))));
          if !p.used.Text? then st3
          else
            var st4 := st3.(dataUsage := Some(KeepDigits(p.used.s)));
            if !days.Text? then st4
            else st4.(daysLeft := Some(KeepDigits(days.s)))
  }

  /**
   * The attributes after the whole of `_parse`: the try block, then, for
   * Telus and only when the try block did not exit, the JSON URL built from
   * the chart's `data-url`.
   */
  function ParseEffect(c: Carrier, p: Page, st: FieldState): (r: FieldState)
    ensures !p.planHeading.Text? ==> r == st
    ensures c == KoodoMobile ==> r.jsonUrl == st.jsonUrl
  {
    var t := TryEffect(c, p, st);
    if c == TelusWireline && Extract(c, p).Ok? && p.chartDataUrl.Some?
    then t.(jsonUrl := Some(TelusOrigin + p.chartDataUrl.value))
    else t
  }

  /**
   * A parse that gets through the try block leaves every base field set to
   * the extracted value; Telus then also records its JSON URL and Koodo
   * leaves it alone.
   */
  lemma ParseEffectOnSuccess(c: Carrier, p: Page, st: FieldState)
    requires Extract(c, p).Ok?
    ensures var u := Extract(c, p).value;
            var st' := ParseEffect(c, p, st);
            st'.plan == Some(u.plan) && st'.dataUsageUnit == Some(u.unit) && st'.dataUsage == Some(u.used)
            && st'.dataPlanTotal == Some(u.total) && st'.daysLeft == Some(u.daysLeft)
            && st'.jsonUrl == (if c == TelusWireline && p.chartDataUrl.Some?
                               then Some(TelusOrigin + p.chartDataUrl.value) else st.jsonUrl)
  {
  }

  /**
   * From the freshly constructed state the attributes are filled in source
   * order (plan, unit, total, usage, days left): a later one is set only if
   * all earlier ones are.
   */
  lemma ParseEffectInOrder(c: Carrier, p: Page)
    ensures var st := ParseEffect(c, p, Unassigned);
            (st.dataUsageUnit.Some? ==> st.plan.Some?)
            && (st.dataPlanTotal.Some? ==> st.dataUsageUnit.Some?)
            && (st.dataUsage.Some? ==> st.dataPlanTotal.Some?)
            && (st.daysLeft.Some? ==> st.dataUsage.Some?)
            && (st.jsonUrl.Some? ==> st.daysLeft.Some? && c == TelusWireline)
  {
  }

  /** A page whose plan heading cannot be read leaves every attribute as it was. */
  lemma ParseEffectNoHeading(c: Carrier, p: Page, st: FieldState)
    requires !p.planHeading.Text?
    ensures ParseEffect(c, p, st) == st && ParseOutcome(c, p) == Err(ParseExit)
  {
  }

  /**
   * The two parsers agree except for the days-left locator: Telus on a page
   * is Koodo on the same page with the Telus days element in the Koodo slot,
   * apart from the JSON URL lookup that only Telus does.
   */
  lemma TelusKoodoDifferOnlyInDays(p: Page)
    ensures Extract(TelusWireline, p) == Extract(KoodoMobile, p.(recordsDays := p.billCycleDays))
    ensures ParseEffect(TelusWireline, p, Unassigned).(jsonUrl := None)
            == ParseEffect(KoodoMobile, p.(recordsDays := p.billCycleDays), Unassigned)
  {
  }

  /** Each parser ignores the other's days element, and only Telus looks at the chart's `data-url`. */
  lemma LocatorsIgnored(p: Page, other: Located, url: Option<string>)
    ensures Extract(TelusWireline, p.(recordsDays := other)) == Extract(TelusWireline, p)
    ensures Extract(KoodoMobile, p.(billCycleDays := other)) == Extract(KoodoMobile, p)
    ensures ParseOutcome(KoodoMobile, p.(chartDataUrl := url)) == ParseOutcome(KoodoMobile, p)
  {
  }

  /**
   * The card span "(50GB)": the unit is its last two characters, "B)", and
   * the total is the digits of "50G", that is "50".
   */
  lemma ExampleParenthesisedCard()
    ensures UnitOf("(50GB)") == "B)" && KeepDigits(TotalTextOf("(50GB)")) == "50"
  {
    ExampleCard("(50GB)", "B)", "50G", "50");
  }

  /** A stripped card text of three characters, "5GB", yields the unit "GB" and an empty total. */
  lemma ExampleShortCard()
    ensures UnitOf("5GB") == "GB" && TotalTextOf("5GB") == []
  {
    StripKnown("5GB");
  }

  /** The used text "32" is stored as "32", the days text "19 days left" as "19". */
  lemma ExampleDigitFields()
    ensures KeepDigits("32") == "32" && KeepDigits("19 days left") == "19"
  {
  }

  /** Helper: unit and total of a five- or six-character card text without surrounding whitespace. */
  lemma ExampleCard(card: string, unit: string, middle: string, total: string)
    requires 5 <= |card| <= 6 && !IsSpace(card[0]) && !IsSpace(card[|card| - 1])
    requires unit == card[|card| - 2..] && middle == card[1..|card| - 2]
    requires middle != [] && !IsSpace(middle[0]) && !IsSpace(middle[|middle| - 1])
    requires |total| == 2 && AllDigits(total) && total == middle[..2]
    requires |middle| == 3 ==> !IsDigit(middle[2])
    ensures UnitOf(card) == unit && KeepDigits(TotalTextOf(card)) == total
  {
    StripKnown(card);
    StripKnown(middle);
    assert middle == total + middle[2..];
    KeepDigitsConcat(total, middle[2..]);
    KeepDigitsOfDigits(total);
    if |middle| == 3 {
      assert middle[2..] == [middle[2]];
      KeepDigitsChar(middle[2]);
    }
  }

  /** Helper: a string with no whitespace at either end is its own strip. */
  lemma StripKnown(s: string)
    requires s != [] ==> !IsSpace(s[0]) && !IsSpace(s[|s| - 1])
    ensures Strip(s) == s
  {
    assert SkipSpace(s, 0, |s|) == 0;
    assert SkipSpaceBack(s, 0, |s|) == |s|;
  }

  // ------------------------------------------------------- the scraper object

  /** How a login attempt ends: `requests.session()` raised, the POST raised, or the POST completed. */
  datatype LoginOutcome = SessionFailed | PostRaised | PostCompleted

  /** An HTTP request the scraper issued. */
  datatype Request =
    | Post(url: string, data: map<string, string>, headers: map<string, string>)
    | Get(url: string, headers: map<string, string>)

  /** Whether a step returned normally or raised. */
  datatype Outcome = Done | Failed(fault: Fault)

  function OutcomeOf(r: Result<Usage, Fault>): Outcome {
    if r.Ok? then Done else Failed(r.error)
  }

  /**
   * What `go` ends with, given whether a session existed before it, how the
   * login went and what the GET returned (None: it raised). A raised POST
   * does not stop the run; only a session that was never opened does, as an
   * AttributeError on `s`.
   */
  function GoOutcome(c: Carrier, hadSession: bool, login: LoginOutcome, response: Option<Page>): (r: Result<Usage, Fault>)
    ensures r != Err(NotLoggedIn)
    ensures r.Ok? ==> (hadSession || login != SessionFailed) && response.Some? && Extract(c, response.value) == r
    ensures r == Err(MissingAttribute) <==> !hadSession && login == SessionFailed
    ensures (hadSession || login != SessionFailed) && response.None? ==> r == Err(TransportError)
    ensures (hadSession || login != SessionFailed) && response.Some? ==> (r.Ok? <==> ParseOutcome(c, response.value).Ok?)
    ensures (hadSession || login != SessionFailed) && response.Some? && Extract(c, response.value).Err? ==> r == Err(ParseExit)
    ensures (hadSession || login != SessionFailed) && response.Some? && Extract(c, response.value).Ok? && r.Err? ==>
              r == Err(MissingDataUrl)
  {
    if !hadSession && login == SessionFailed then Err(MissingAttribute)
    else if response.None? then Err(TransportError)
    else ParseOutcome(c, response.value)
  }

  /** A login whose POST raised leads to the same run as one whose POST completed. */
  lemma PostFailureIgnored(c: Carrier, hadSession: bool, response: Option<Page>)
    ensures GoOutcome(c, hadSession, PostRaised, response) == GoOutcome(c, hadSession, PostCompleted, response)
  {
  }

  /** The requests `_login` issues: none when no session could be opened, else the one POST. */
  function LoginRequests(login: LoginOutcome, url: string, data: map<string, string>, headers: map<string, string>): seq<Request> {
    if login == SessionFailed then [] else [Post(url, data, headers)]
  }

  /**
   * `CarrierUsageScraper` with the state its methods assign. The profile is
   * fixed at construction; the usage attributes start unset.
   */
  class Scraper {
    const carrier: Carrier
    const name: string
    const description: string
    const postData: map<string, string>
    const urlLogin: string
    const urlData: string
    const httpHeaders: map<string, string>

    var loggedIn: Option<bool>    // `_logged_in`; None while the attribute does not exist
    var hasSession: bool          // whether `s` holds a session
    var loginFailed: Option<int>  // `login_failed`; None while the attribute does not exist
    var plan: Option<string>
    var dataUsageUnit: Option<string>
    var dataUsage: Option<string>
    var dataPlanTotal: Option<string>
    var daysLeft: Option<string>
    var jsonUrl: Option<string>

    /** The requests issued so far, oldest first. */
    ghost var sent: seq<Request>

    /**
     * `_logged_in` is only ever True;
     * `login_failed` is only ever 1; nothing is sent before the first login,
     * and the first request is always the login POST.
     */
    ghost predicate Valid()
      reads this
    {
      && loggedIn != Some(false)
      && (loginFailed.Some? ==> loginFailed == Some(1))
      && (loggedIn.None? ==> sent == [] && !hasSession)
      && (hasSession ==> sent != [])
      && (sent != [] ==> sent[0].Post?)
    }

    /** The attributes `_parse` assigns. */
    function Fields(): FieldState
      reads this
    {
      FieldState(plan, dataUsageUnit, dataUsage, dataPlanTotal, daysLeft, jsonUrl)
    }

    /** The base fields, once all of them are set. */
    function Snapshot(): Option<Usage>
      reads this
    {
      if plan.Some? && dataUsageUnit.Some? && dataUsage.Some? && dataPlanTotal.Some? && daysLeft.Some?
      then Some(Usage(plan.value, dataUsageUnit.value, dataUsage.value, dataPlanTotal.value, daysLeft.value))
      else None
    }

    /** `self.__dict__[attr]` for the usage attributes; None: KeyError. */
    function Attribute(attr: string): Option<Option<string>>
      reads this
    {
      FieldAttr(Fields(), attr)
    }

    /**
     * `CarrierUsageScraper.__init__` as the subclass constructor of carrier
     * `c` calls it: with that carrier's own name, description, URLs and
     * login form around the caller's credentials. It stores the profile and
     * leaves every usage attribute unset.
     */
    constructor (c: Carrier, profile: Profile)
      ensures Valid()
      ensures carrier == c && name == profile.name && description == profile.description
      ensures urlLogin == profile.urlLogin && urlData == profile.urlData
      ensures postData == profile.postData && httpHeaders == profile.httpHeaders
      ensures Fields() == Unassigned && Snapshot() == None
      ensures loggedIn == None && !hasSession && loginFailed == None && sent == []
    {
      carrier := c;
      name := profile.name;
      description := profile.description;
      postData := profile.postData;
      urlLogin := profile.urlLogin;
      urlData := profile.urlData;
      httpHeaders := profile.httpHeaders;
      loggedIn := None;
      hasSession := false;
      loginFailed := None;
      plan, dataUsageUnit, dataUsage, dataPlanTotal, daysLeft, jsonUrl := None, None, None, None, None, None;
      sent := [];
    }

    /** `get_data_usage`. */
    method GetDataUsage() returns (r: Option<string>)
      ensures r == Fields().dataUsage
    {
      r := dataUsage;
    }

    /** `get_plan`. */
    method GetPlan() returns (r: Option<string>)
      ensures r == Fields().plan
    {
      r := plan;
    }

    /**
     * `_login`: open a session and POST the payload. A failure at either step
     * sets `login_failed` and is swallowed; the instance is marked logged in
     * regardless.
     */
    method Login(outcome: LoginOutcome)
      requires Valid()
      modifies this`loggedIn, this`hasSession, this`loginFailed, this`sent
      ensures Valid()
      ensures loggedIn == Some(true)
      ensures hasSession == (old(hasSession) || outcome != SessionFailed)
      ensures loginFailed == if outcome == PostCompleted then old(loginFailed) else Some(1)
      ensures sent == old(sent) + LoginRequests(outcome, urlLogin, postData, httpHeaders)
    {
      if outcome == SessionFailed {
        loginFailed := Some(1);
      } else {
        hasSession := true;
        sent := sent + [Post(urlLogin, postData, httpHeaders)];
        if outcome == PostRaised {
          loginFailed := Some(1);
        }
      }
      loggedIn := Some(true);
    }

    /**
     * `_get_data_pg_html`: refuse unless logged in, else GET the usage page.
     * Reading `_logged_in` or `s` before either was assigned raises an
     * AttributeError; in that case, and when "Not logged in" is raised, no
     * GET is issued.
     */
    method FetchDataPage(response: Option<Page>) returns (r: Result<Page, Fault>)
      modifies this`sent
      ensures old(Valid()) ==> Valid()
      ensures loggedIn != Some(true) || !hasSession ==> sent == old(sent)
      ensures loggedIn == None ==> r == Err(MissingAttribute)
      ensures loggedIn.Some? && loggedIn != Some(true) ==> r == Err(NotLoggedIn)
      ensures loggedIn == Some(true) && !hasSession ==> r == Err(MissingAttribute)
      ensures loggedIn == Some(true) && hasSession ==>
                sent == old(sent) + [Get(urlData, httpHeaders)]
                && r == if response.None? then Err(TransportError) else Ok(response.value)
    {
      if loggedIn.None? {
        return Err(MissingAttribute);
      }
      if loggedIn != Some(true) {
        return Err(NotLoggedIn);
      }
      if !hasSession {
        return Err(MissingAttribute);
      }
      sent := sent + [Get(urlData, httpHeaders)];
      if response.None? {
        return Err(TransportError);
      }
      return Ok(response.value);
    }

    /**
     * The try block of `_parse`: assign the base attributes one lookup at a
     * time, stopping at the first lookup that fails; `ok` says whether the
     * block ran to its end.
     */
    method ParseTry(page: Page) returns (ok: bool)
      requires Valid()
      modifies this`plan, this`dataUsageUnit, this`dataUsage, this`dataPlanTotal, this`daysLeft
      ensures Valid()
      ensures Fields() == TryEffect(carrier, page, old(Fields()))
      ensures ok == Extract(carrier, page).Ok?
    {
      var days := DaysLocated(carrier, page);
      if !page.planHeading.Text? {
        return false;
      }
      plan := Some(Strip(page.planHeading.s));
      if !page.cardSpan.Text? {
        return false;
      }
      dataUsageUnit := Some(UnitOf(page.cardSpan.s));
      if page.used.Missing? || days.Missing? {
        return false;
      }
      dataPlanTotal := Some(KeepDigits(TotalTextOf(page.cardSpan.s)));
      if !page.used.Text? {
        return false;
      }
      dataUsage := Some(KeepDigits(page.used.s));
      if !days.Text? {
        return false;
      }
      daysLeft := Some(KeepDigits(days.s));
      return true;
    }

    /**
     * `_parse` of the scraper's carrier: the try block, whose failure is the
     * parse exit; then Telus resolves its JSON URL outside the try block.
     */
    method Parse(page: Page) returns (r: Outcome)
      requires Valid()
      modifies this`plan, this`dataUsageUnit, this`dataUsage, this`dataPlanTotal, this`daysLeft, this`jsonUrl
      ensures Valid()
      ensures Fields() == ParseEffect(carrier, page, old(Fields()))
      ensures r == OutcomeOf(ParseOutcome(carrier, page))
    {
      var ok := ParseTry(page);
      if !ok {
        return Failed(ParseExit);
      }
      if carrier == TelusWireline {
        if page.chartDataUrl.None? {
          return Failed(MissingDataUrl);
        }
        jsonUrl := Some(TelusOrigin + page.chartDataUrl.value);
      }
      return Done;
    }

    /**
     * `go`: login, then the page fetch, then the parse, each at most once and
     * in that order; a fault at a step ends `go` there.
     */
    method Go(login: LoginOutcome, response: Option<Page>) returns (r: Outcome)
      requires Valid()
      modifies this
      ensures Valid()
      ensures loggedIn == Some(true)
      ensures hasSession == (old(hasSession) || login != SessionFailed)
      ensures loginFailed == if login == PostCompleted then old(loginFailed) else Some(1)
      ensures sent == old(sent) + LoginRequests(login, urlLogin, postData, httpHeaders)
                      + (if hasSession then [Get(urlData, httpHeaders)] else [])
      ensures Fields() == if hasSession && response.Some? then ParseEffect(carrier, response.value, old(Fields()))
                          else old(Fields())
      ensures r == OutcomeOf(GoOutcome(carrier, old(hasSession), login, response))
      ensures r.Done? ==> Snapshot() == Some(GoOutcome(carrier, old(hasSession), login, response).value)
    {
      Login(login);
      var page := FetchDataPage(response);
      if page.Err? {
        return Failed(page.error);
      }
      r := Parse(page.value);
      if r.Done? {
        ParseEffectOnSuccess(carrier, page.value, old(Fields()));
      }
    }
  }
}
