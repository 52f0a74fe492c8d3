/** The dispatch decision of the `POST /deploy/{token}` handler, once the body
    has been decoded. Starting the deploy script and posting the callback are
    not performed here: they are returned as data in the outcome, in the order
    the handler starts them. */
module Handler {
  import opened Wrappers
  import opened Types
  import Search

  const StatusCreated := 201
  const StatusBadRequest := 400
  const StatusNotFound := 404

  /** Background work the handler starts: running a deploy script, or posting
      a status payload to a URL. */
  datatype Action =
    | LaunchScript(script: string)
    | SendCallback(url: string, payload: WebhookResponse)

  /** What one request leads to: either the whole process exits (the body could
      not be decoded and the handler calls log.Fatal), or an HTTP status with an
      empty body is written and the listed actions are started. */
  datatype Outcome =
    | Terminated
    | Responded(status: int, actions: seq<Action>)

  /** The payload the handler always reports on a deploy, whatever the script does. */
  function SuccessResponse(): WebhookResponse {
    WebhookResponse("success", "", "Deploy", "")
  }

  /** The outcome of a deploy of `opt` requested by `req`. */
  function Deployed(opt: SingleConf, req: WebhookRequest): Outcome {
    Responded(StatusCreated, [LaunchScript(opt.script), SendCallback(req.callbackUrl, SuccessResponse())])
  }

  /** The decision once `opt` is the repository selected by the token: the
      pushed tag must be one of its tags. */
  function Decide(opt: SingleConf, req: WebhookRequest): (o: Outcome)
    ensures req.pushData.tag in opt.tags ==> o == Deployed(opt, req)
    ensures req.pushData.tag !in opt.tags ==> o == Responded(StatusNotFound, [])
  {
    if !Search.Find(opt.tags, req.pushData.tag).found then Responded(StatusNotFound, [])
    else Deployed(opt, req)
  }

  /** The scan over the configured repositories: the first one whose token is
      `token` decides; when none has it, the request is a bad request. Every
      outcome is one of three shapes, and only a deploy starts anything. */
  function Scan(token: string, req: WebhookRequest, repos: seq<SingleConf>): (o: Outcome)
    ensures o.Responded?
    ensures o.status == StatusBadRequest || o.status == StatusNotFound || o.status == StatusCreated
    ensures o.status != StatusCreated ==> o.actions == []
    ensures o.status == StatusCreated ==>
              |o.actions| == 2 && o.actions[0].LaunchScript?
              && o.actions[1] == SendCallback(req.callbackUrl, SuccessResponse())
    decreases |repos|
  {
    if |repos| == 0 then Responded(StatusBadRequest, [])
    else if token == repos[0].token then Decide(repos[0], req)
    else Scan(token, req, repos[1..])
  }

  /** The whole handler. `body` is None when the request body is not a valid
      webhook; `pathToken` is None when the router supplied no `token`. */
  function Post(pathToken: Option<string>, body: Option<WebhookRequest>, config: AppConfiguration): (o: Outcome)
    ensures o.Terminated? <==> body.None?
  {
    match body
    case None => Terminated
    case Some(req) =>
      if pathToken.Some? then Scan(pathToken.value, req, config.repos)
      else Responded(StatusBadRequest, [])
  }

  /** `i` is the first position whose repository has token `token`. */
  ghost predicate FirstMatch(repos: seq<SingleConf>, token: string, i: int) {
    0 <= i < |repos| && repos[i].token == token
    && forall j :: 0 <= j < i ==> repos[j].token != token
  }

  /** No configured repository has token `token`. */
  ghost predicate NoMatch(repos: seq<SingleConf>, token: string) {
    forall j :: 0 <= j < |repos| ==> repos[j].token != token
  }

  /** The scan hands the decision to the first matching repository. */
  lemma {:induction false} ScanFirstMatch(token: string, req: WebhookRequest, repos: seq<SingleConf>, i: int)
    requires FirstMatch(repos, token, i)
    ensures Scan(token, req, repos) == Decide(repos[i], req)
    decreases i
  {
    if i > 0 {
      assert repos[0].token != token;
      ScanFirstMatch(token, req, repos[1..], i - 1);
    }
  }

  /** With no repository holding the token, the scan ends in a bad request. */
  lemma {:induction false} ScanNoMatch(token: string, req: WebhookRequest, repos: seq<SingleConf>)
    requires NoMatch(repos, token)
    ensures Scan(token, req, repos) == Responded(StatusBadRequest, [])
    decreases |repos|
  {
    if |repos| > 0 {
      assert repos[0].token != token;
      ScanNoMatch(token, req, repos[1..]);
    }
  }

  /** A repository holding the token means there is a first one holding it. */
  lemma {:induction false} FirstMatchExists(repos: seq<SingleConf>, token: string, k: int)
    requires 0 <= k < |repos| && repos[k].token == token
    ensures exists i :: FirstMatch(repos, token, i)
    decreases k
  {
    if FirstMatch(repos, token, k) {
    } else {
      var j :| 0 <= j < k && repos[j].token == token;
      FirstMatchExists(repos, token, j);
    }
  }

  /** Either no repository holds the token or exactly one position is the first. */
  lemma MatchCases(repos: seq<SingleConf>, token: string)
    ensures NoMatch(repos, token) || exists i :: FirstMatch(repos, token, i)
    ensures forall i, i' :: FirstMatch(repos, token, i) && FirstMatch(repos, token, i') ==> i == i'
  {
    if !NoMatch(repos, token) {
      var k :| 0 <= k < |repos| && repos[k].token == token;
      FirstMatchExists(repos, token, k);
    }
  }

  /** An absent token, or one that no repository holds, is answered 400 with
      nothing started. */
  lemma UnknownTokenIsBadRequest(pathToken: Option<string>, req: WebhookRequest, config: AppConfiguration)
    requires pathToken.None? || NoMatch(config.repos, pathToken.value)
    ensures Post(pathToken, Some(req), config) == Responded(StatusBadRequest, [])
  {
    if pathToken.Some? {
      ScanNoMatch(pathToken.value, req, config.repos);
    }
  }

  /** A 400 is given for an absent or unknown token and for nothing else. */
  lemma BadRequestIffUnknownToken(pathToken: Option<string>, req: WebhookRequest, config: AppConfiguration)
    ensures Post(pathToken, Some(req), config).status == StatusBadRequest
            <==> pathToken.None? || NoMatch(config.repos, pathToken.value)
  {
    if pathToken.Some? {
      MatchCases(config.repos, pathToken.value);
      if NoMatch(config.repos, pathToken.value) {
        ScanNoMatch(pathToken.value, req, config.repos);
      } else {
        var i :| FirstMatch(config.repos, pathToken.value, i);
        ScanFirstMatch(pathToken.value, req, config.repos, i);
      }
    }
  }

  /** Only the first repository holding the token is consulted: the handler's
      outcome is that repository's decision, and the repositories after it can
      be anything at all. */
  lemma OnlyFirstMatchDecides(token: string, req: WebhookRequest, config: AppConfiguration, i: int, others: seq<SingleConf>)
    requires FirstMatch(config.repos, token, i)
    ensures Post(Some(token), Some(req), config) == Decide(config.repos[i], req)
    ensures Post(Some(token), Some(req), config)
            == Post(Some(token), Some(req), config.(repos := config.repos[..i + 1] + others))
  {
    var repos' := config.repos[..i + 1] + others;
    assert FirstMatch(repos', token, i) by {
      assert forall j :: 0 <= j <= i ==> repos'[j] == config.repos[j];
    }
    ScanFirstMatch(token, req, config.repos, i);
    ScanFirstMatch(token, req, repos', i);
  }

  /** A known token with a tag that repository does not manage is answered 404
      with nothing started. */
  lemma UnmanagedTagIsNotFound(token: string, req: WebhookRequest, config: AppConfiguration, i: int)
    requires FirstMatch(config.repos, token, i)
    requires req.pushData.tag !in config.repos[i].tags
    ensures Post(Some(token), Some(req), config) == Responded(StatusNotFound, [])
  {
    ScanFirstMatch(token, req, config.repos, i);
  }

  /** A known token with a managed tag is answered 201, starts that
      repository's script once and posts the success payload once to the
      request's callback URL. */
  lemma ManagedTagDeploys(token: string, req: WebhookRequest, config: AppConfiguration, i: int)
    requires FirstMatch(config.repos, token, i)
    requires req.pushData.tag in config.repos[i].tags
    ensures Post(Some(token), Some(req), config)
            == Responded(StatusCreated, [LaunchScript(config.repos[i].script),
                                         SendCallback(req.callbackUrl, SuccessResponse())])
  {
    ScanFirstMatch(token, req, config.repos, i);
  }

  /** A deploy is started exactly when the token selects a repository that
      manages the pushed tag, and the script started is that repository's. */
  lemma DeployIffAuthorized(pathToken: Option<string>, req: WebhookRequest, config: AppConfiguration, script: string)
    ensures LaunchScript(script) in Post(pathToken, Some(req), config).actions
            <==> pathToken.Some?
                 && exists i :: FirstMatch(config.repos, pathToken.value, i)
                                && req.pushData.tag in config.repos[i].tags
                                && config.repos[i].script == script
  {
    if pathToken.Some? {
      var token := pathToken.value;
      MatchCases(config.repos, token);
      if NoMatch(config.repos, token) {
        ScanNoMatch(token, req, config.repos);
      } else {
        var i :| FirstMatch(config.repos, token, i);
        ScanFirstMatch(token, req, config.repos, i);
      }
    }
  }

  /** A worked example: one repository "api" with token
      "abc123", script "deploy.sh" and tags "latest" and "v2". */
  lemma ExampleScenarios()
    ensures var api := SingleConf("api", "abc123", "deploy.sh", ["latest", "v2"]);
            var config := AppConfiguration(8080, "", [api]);
            && Post(Some("abc123"), Some(WebhookRequest("http://x/cb", PushData("latest"))), config)
               == Responded(StatusCreated, [LaunchScript("deploy.sh"),
                                            SendCallback("http://x/cb", WebhookResponse("success", "", "Deploy", ""))])
            && Post(Some("abc123"), Some(WebhookRequest("http://x/cb", PushData("staging"))), config)
               == Responded(StatusNotFound, [])
            && Post(Some("wrongtoken"), Some(WebhookRequest("http://x/cb", PushData("latest"))), config)
               == Responded(StatusBadRequest, [])
  {
  }
}
