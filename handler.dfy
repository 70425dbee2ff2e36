/** The Lambda handler: configuration check, destructuring, enrichment, message assembly
    and delivery, with the process environment, the SDK and the webhook POST passed in. */
module Handler {
  import opened Js
  import opened Event
  import opened Enrich
  import opened Slack

  /** The two environment variables the handler reads. */
  datatype Config = Config(webhookUrl: JsValue, environment: JsValue)

  /** What the webhook POST comes to: an ok response, a non-ok response, or a thrown error. */
  datatype Delivery = Accepted | Rejected(status: int, body: string) | Unreachable

  /** The POST the handler makes: the webhook URL and the message it sends. */
  datatype Post = Post(url: string, message: SlackMessage)

  /** The handler's result object. */
  datatype Response = Response(statusCode: int, body: string)

  const NotConfigured: string := "SLACK_WEBHOOK_URL is not configured."
  const Sent: string := "Notification sent successfully."
  const NotSent: string := "Failed to send notification."

  /** The handler body. `requests` are the SDK calls it issues and `post` the webhook POST
      it makes, if any; the lookups' and the POST's outcomes are inputs. It always returns. */
  method Handle(event: BuildEvent, config: Config, app: Lookup<AppResponse>,
                domains: Lookup<DomainsResponse>, job: Lookup<JobResponse>, delivery: Delivery)
    returns (res: Response, requests: seq<Request>, post: Option<Post>)
    ensures !Truthy(config.webhookUrl) ==>
      res == Response(500, NotConfigured) && requests == [] && post == None
    ensures Truthy(config.webhookUrl) ==>
      var f := Destructure(event);
      var meta := Enrichment(f.appId, f.jobId, app, domains, job);
      && requests == Requests(f.appId, f.branchName, f.jobId, app, domains, job)
      && post == Some(Post(config.webhookUrl.s, BuildMessage(f, config.environment, meta)))
      && res == (if delivery.Accepted? then Response(200, Sent) else Response(500, NotSent))
    ensures res.statusCode == 200 <==> Truthy(config.webhookUrl) && delivery.Accepted?
    ensures res.statusCode != 200 ==> res.statusCode == 500
  {
    if !Truthy(config.webhookUrl) {
      return Response(500, NotConfigured), [], None;
    }
    var f := Destructure(event);
    var meta;
    meta, requests := EnrichMetadata(f.appId, f.branchName, f.jobId, app, domains, job);
    var message := BuildMessage(f, config.environment, meta);
    post := Some(Post(config.webhookUrl.s, message));
    match delivery {
      case Accepted =>
        res := Response(200, Sent);
      case Rejected(_, _) =>
        // the status and body only feed the error that is logged
        res := Response(500, NotSent);
      case Unreachable =>
        res := Response(500, NotSent);
    }
  }

  /** Every lookup resolves: the message carries the app name, the domain and the commit. */
  method ScenarioAllLookupsSucceed() {
    var event := BuildEvent(Str("us-east-1"),
      Some(Detail(Str("app1"), Str("main"), Str("SUCCEED"), Str("j1"))));
    var config := Config(Str("https://hooks.slack.test/T"), Str("prod"));
    var res, requests, post := Handle(event, config,
      Ok(AppResponse(Str("MyApp"))), Ok(DomainsResponse(Some([Str("my.app.com")]))),
      Ok(JobResponse(Str("Fix bug"), Undefined)), Accepted);
    assert res == Response(200, Sent);
    assert requests == [GetApp(Str("app1")), ListDomainAssociations(Str("app1")),
                        GetJob(Str("app1"), Str("main"), Str("j1"))];
    var f := Destructure(event);
    var meta := Metadata(Str("MyApp"), Str("my.app.com"), Str("Fix bug"));
    assert post == Some(Post("https://hooks.slack.test/T", BuildMessage(f, Str("prod"), meta)));
    BlockLayout(f, Str("prod"), meta);
    SectionFields(f, Str("prod"), meta);
    ButtonLinksToConsole(f, Str("prod"), meta);
    var b := post.value.message.blocks;
    assert |b| == 5;
    assert b[1].fields == [Markdown("*App Name:* `" + "MyApp" + "`"), Markdown("*Branch:* `" + "main" + "`"),
                           Markdown("*Domain:* https://" + "my.app.com")];
    assert b[2] == Context([Markdown("*Commit:* `" + "Fix bug" + "`")]);
    assert b[3].buttons[0].url == BuildUrl(Str("us-east-1"), Str("app1"), Str("main"));
  }

  /** Every lookup throws: the message still goes out, under the app id, without domain or commit. */
  method ScenarioAllLookupsFail() {
    var event := BuildEvent(Str("us-east-1"),
      Some(Detail(Str("app1"), Str("main"), Str("SUCCEED"), Str("j1"))));
    var config := Config(Str("https://hooks.slack.test/T"), Str("prod"));
    var res, requests, post := Handle(event, config, Fail, Fail, Fail, Rejected(404, "no_service"));
    assert res == Response(500, NotSent);
    assert requests == [GetApp(Str("app1"))];
    var b := post.value.message.blocks;
    assert |b| == 4;
    assert b[1].fields == [Markdown("*App Name:* `" + "app1" + "`"), Markdown("*Branch:* `" + "main" + "`")];
  }

  /** No webhook URL: nothing is looked up and nothing is posted. */
  method ScenarioNoWebhook() {
    var event := BuildEvent(Undefined, None);
    var res, requests, post := Handle(event, Config(Str(""), Undefined),
      Ok(AppResponse(Str("MyApp"))), Fail, Fail, Accepted);
    assert res == Response(500, "SLACK_WEBHOOK_URL is not configured.");
    assert requests == [] && post == None;
  }
}
