/** The SonarQube proxy route (`GET` in `app/api/sonarqube/route.ts`): the
    configuration check, the request it makes, and how the upstream reply
    becomes the route's response. The environment and the upstream reply
    are parameters; the request itself, Basic-auth encoding and logging are
    outside. */
module SonarQube {
  import opened Wrappers
  import opened JsText

  // ---------------------------------------------------------------------
  // Vulnerability levels (lines 67-73)

  datatype Level = High | Medium | Low

  /** The string a level is sent as. */
  function LevelName(l: Level): string
  {
    match l
    case High => "HIGH"
    case Medium => "MEDIUM"
    case Low => "LOW"
  }

  /** `determineVulnerabilityLevel`: upper-case the input, then HIGH if it
      mentions HIGH, else MEDIUM if it mentions MEDIUM, else LOW. */
  function DetermineVulnerabilityLevel(level: string): (l: Level)
    ensures l == High <==> Contains(ToUpper(level), "HIGH")
    ensures l == Medium <==> !Contains(ToUpper(level), "HIGH") && Contains(ToUpper(level), "MEDIUM")
    ensures l == Low <==> !Contains(ToUpper(level), "HIGH") && !Contains(ToUpper(level), "MEDIUM")
  {
    var upper := ToUpper(level);
    if Contains(upper, "HIGH") then High
    else if Contains(upper, "MEDIUM") then Medium
    else Low
  }

  /** Matching ignores case: lower- or upper-casing the input first changes
      nothing. */
  lemma LevelIgnoresCase(level: string)
    ensures DetermineVulnerabilityLevel(ToLower(level)) == DetermineVulnerabilityLevel(level)
    ensures DetermineVulnerabilityLevel(ToUpper(level)) == DetermineVulnerabilityLevel(level)
  {
    UpperOfLower(level);
    UpperTwice(level);
  }

  /** A string no longer than `t` minus one cannot contain `t`. */
  lemma TooShortToContain(s: string, t: string)
    requires |s| < |t|
    ensures !Contains(s, t)
  {
  }

  /** A string without the first letter of `t` cannot contain `t`. */
  lemma MissingFirstLetter(s: string, t: string)
    requires t != [] && forall i :: 0 <= i < |s| ==> s[i] != t[0]
    ensures !Contains(s, t)
  {
    forall i ensures !OccursAt(s, t, i) {
      if 0 <= i && i + |t| <= |s| {
        assert s[i..i + |t|][0] == s[i];
      }
    }
  }

  /** A missing probability is sent as "" and comes out LOW. */
  lemma EmptyLevelIsLow()
    ensures DetermineVulnerabilityLevel("") == Low
  {
    assert ToUpper("") == "";
    TooShortToContain("", "HIGH");
    TooShortToContain("", "MEDIUM");
  }

  /** "high" and "High" both come out HIGH. */
  lemma HighInAnyCase()
    ensures DetermineVulnerabilityLevel("high") == High
    ensures DetermineVulnerabilityLevel("High") == High
  {
    var h := "HIGH";
    assert ToUpper("high") == h && ToUpper("High") == h;
    assert OccursAt(h, h, 0);
  }

  /** The names the route sends are fixed points: normalising an already
      normalised level gives it back. */
  lemma LevelNameFixed(l: Level)
    ensures DetermineVulnerabilityLevel(LevelName(l)) == l
  {
    var n := LevelName(l);
    assert ToUpper(n) == n;
    match l
    case High =>
      assert OccursAt(n, "HIGH", 0);
    case Medium =>
      assert OccursAt(n, "MEDIUM", 0);
      MissingFirstLetter(n, "HIGH");
    case Low =>
      TooShortToContain(n, "HIGH");
      TooShortToContain(n, "MEDIUM");
  }

  // ---------------------------------------------------------------------
  // Hotspots (lines 44-54)

  /** The hotspot fields the route passes through unchanged (`...hotspot`). */
  datatype Details = Details(
    key: string,
    component: string,
    project: string,
    line: Option<int>,
    message: string,
    author: string,
    creationDate: string,
    updateDate: string,
    ruleKey: string)

  /** A hotspot as SonarQube sends it: the three normalised fields may be
      missing. */
  datatype RawHotspot = RawHotspot(
    details: Details,
    vulnerabilityProbability: Option<string>,
    status: Option<string>,
    securityCategory: Option<string>)

  /** A hotspot as the route returns it. */
  datatype Hotspot = Hotspot(
    details: Details,
    vulnerabilityProbability: Level,
    status: string,
    securityCategory: string)

  const DefaultStatus: string := "TO_REVIEW"
  const DefaultCategory: string := "unknown"

  /** The per-hotspot map: the level is normalised, a missing or empty
      status becomes TO_REVIEW and a missing or empty category "unknown";
      every other field is kept. */
  function Normalise(h: RawHotspot): (r: Hotspot)
    ensures r.details == h.details
    ensures r.vulnerabilityProbability == DetermineVulnerabilityLevel(OrDefault(h.vulnerabilityProbability, ""))
    ensures r.status != "" && r.securityCategory != ""
    ensures h.status.Some? && h.status.value != "" ==> r.status == h.status.value
    ensures h.status.None? || h.status.value == "" ==> r.status == DefaultStatus
    ensures h.securityCategory.Some? && h.securityCategory.value != "" ==> r.securityCategory == h.securityCategory.value
    ensures h.securityCategory.None? || h.securityCategory.value == "" ==> r.securityCategory == DefaultCategory
  {
    Hotspot(h.details,
            DetermineVulnerabilityLevel(OrDefault(h.vulnerabilityProbability, "")),
            OrDefault(h.status, DefaultStatus),
            OrDefault(h.securityCategory, DefaultCategory))
  }

  /** `data.hotspots.map(...)`: one normalised hotspot per hotspot, in order. */
  function NormaliseAll(hs: seq<RawHotspot>): (r: seq<Hotspot>)
    ensures |r| == |hs|
    ensures forall i :: 0 <= i < |hs| ==> r[i] == Normalise(hs[i])
  {
    seq(|hs|, i requires 0 <= i < |hs| => Normalise(hs[i]))
  }

  /** A returned hotspot, sent through the route again, comes back as it was:
      normalisation is idempotent. */
  lemma NormaliseIdempotent(h: Hotspot)
    ensures Normalise(RawHotspot(h.details, Some(LevelName(h.vulnerabilityProbability)),
                                 Some(h.status), Some(h.securityCategory))) ==
      if h.status != "" && h.securityCategory != "" then h
      else h.(status := OrDefault(Some(h.status), DefaultStatus),
              securityCategory := OrDefault(Some(h.securityCategory), DefaultCategory))
  {
    LevelNameFixed(h.vulnerabilityProbability);
    assert LevelName(h.vulnerabilityProbability) != "";
  }

  // ---------------------------------------------------------------------
  // The route (lines 3-64)

  datatype Paging = Paging(pageIndex: int, pageSize: int, total: int)

  /** An entry of the reply's `components` list. */
  datatype ComponentRef = ComponentRef(key: string, qualifier: string, name: string, longName: string, path: string)

  /** The parsed upstream body; each field may be missing. */
  datatype Payload = Payload(
    paging: Option<Paging>,
    hotspots: Option<seq<RawHotspot>>,
    components: Option<seq<ComponentRef>>)

  /** The upstream reply: its HTTP status and its body, `None` when it is not
      a JSON object. */
  datatype Reply = Reply(status: int, body: Option<Payload>)

  /** `response.ok`. */
  predicate Ok(r: Reply)
  {
    200 <= r.status <= 299
  }

  /** The route's own response body on success. */
  datatype Report = Report(paging: Option<Paging>, hotspots: seq<Hotspot>, components: seq<ComponentRef>)

  datatype Response = Failure(status: int, error: string) | Success(report: Report)

  /** `SONARQUBE_URL`, `SONARQUBE_USERNAME` and `SONARQUBE_PASSWORD`. */
  datatype Env = Env(url: Option<string>, username: Option<string>, password: Option<string>)

  const ProjectKey: string := "securesync_github"
  const PageSize: string := "100"
  const ConfigMissing: string := "SonarQube configuration missing"
  const FetchFailed: string := "Failed to fetch data from SonarQube"
  const ProcessingFailed: string := "Failed to process SonarQube data"

  /** An environment variable is usable when it is set and not empty. */
  predicate Present(v: Option<string>)
  {
    v.Some? && v.value != ""
  }

  predicate ConfigPresent(env: Env)
  {
    Present(env.url) && Present(env.username) && Present(env.password)
  }

  /** The request the route makes, if any: the hotspot search for the
      project, 100 to a page. No request is made without a configuration. */
  function RequestUrl(env: Env): (u: Option<string>)
    ensures u.Some? <==> ConfigPresent(env)
    ensures u.Some? ==> env.url.value <= u.value
  {
    if !ConfigPresent(env) then None
    else
      var u := env.url.value + "/api/hotspots/search?projectKey=" + ProjectKey + "&ps=" + PageSize;
      assert u[..|env.url.value|] == env.url.value;
      Some(u)
  }

  /** `GET`, given the reply to the request `RequestUrl` names. A body that
      is not an object, or lacks `hotspots`, makes the handler throw, and
      the catch answers 500. */
  function Get(env: Env, reply: Reply): (r: Response)
    ensures r == Failure(500, ConfigMissing) <==> !ConfigPresent(env)
    ensures ConfigPresent(env) && !Ok(reply) ==> r == Failure(reply.status, FetchFailed)
    ensures ConfigPresent(env) && Ok(reply) && !(reply.body.Some? && reply.body.value.hotspots.Some?) ==>
      r == Failure(500, ProcessingFailed)
    ensures r.Success? <==>
      ConfigPresent(env) && Ok(reply) && reply.body.Some? && reply.body.value.hotspots.Some?
    ensures r.Success? ==>
      var p := reply.body.value;
      r.report.paging == p.paging &&
      r.report.hotspots == NormaliseAll(p.hotspots.value) &&
      r.report.components == (if p.components.Some? then p.components.value else [])
  {
    if !ConfigPresent(env) then Failure(500, ConfigMissing)
    else if !Ok(reply) then Failure(reply.status, FetchFailed)
    else match reply.body
      case None => Failure(500, ProcessingFailed)
      case Some(p) =>
        if p.hotspots.None? then Failure(500, ProcessingFailed)
        else Success(Report(p.paging, NormaliseAll(p.hotspots.value), p.components.GetOr([])))
  }

  /** Without a configuration the reply plays no part: the route answers
      500 whatever the upstream would have said. */
  lemma MissingConfigIgnoresReply(env: Env, a: Reply, b: Reply)
    requires !ConfigPresent(env)
    ensures Get(env, a) == Get(env, b) == Failure(500, ConfigMissing)
    ensures RequestUrl(env) == None
  {
  }

  /** Every returned hotspot has a level among HIGH, MEDIUM and LOW, a
      non-empty status and a non-empty category. */
  lemma ReportFieldsFilled(env: Env, reply: Reply, i: nat)
    requires Get(env, reply).Success?
    requires i < |Get(env, reply).report.hotspots|
    ensures
      var h := Get(env, reply).report.hotspots[i];
      LevelName(h.vulnerabilityProbability) in ["HIGH", "MEDIUM", "LOW"] &&
      h.status != "" && h.securityCategory != ""
  {
  }
}
