/** The Slack Block Kit payload the handler builds, and the two string templates it uses
    (the console link and the thread id). */
module Slack {
  import opened Js
  import opened Status
  import opened Event
  import opened Enrich

  /** A Block Kit text object. */
  datatype Text = PlainText(text: string, emoji: bool) | Markdown(text: string)

  /** A button element of an actions block. */
  datatype Button = Button(caption: Text, style: string, url: string, actionId: string)

  datatype Block =
    | Header(title: Text)
    | Section(fields: seq<Text>)
    | Context(elements: seq<Text>)
    | Actions(buttons: seq<Button>)

  /** The payload: fallback notification text, thread id and the blocks, in order. */
  datatype SlackMessage = SlackMessage(text: string, threadTs: string, blocks: seq<Block>)

  const ConsolePrefix: string := ".console.aws.amazon.com/amplify/apps/"

  /** The link to the deployment in the Amplify console; no value in it gets a fallback. */
  function BuildUrl(region: JsValue, appId: JsValue, branchName: JsValue): string {
    "https://" + Render(region) + ConsolePrefix + Render(appId)
      + "/branches/" + Render(branchName) + "/deployments"
  }

  /** generateThreadId: `<appName>-<jobId>`. */
  function GenerateThreadId(appName: JsValue, jobId: JsValue): string {
    Render(appName) + "-" + Render(jobId)
  }

  /** Index of the first '-' in t, or |t| when there is none. */
  function FirstDash(t: string): (i: nat)
    ensures i <= |t|
    ensures forall k :: 0 <= k < i ==> t[k] != '-'
    ensures i < |t| ==> t[i] == '-'
  {
    if t == [] || t[0] == '-' then 0 else 1 + FirstDash(t[1..])
  }

  /** Reads a thread id back into the rendered app name and job id, splitting at the first '-'. */
  function SplitThreadId(t: string): (string, string) {
    var i := FirstDash(t);
    if i < |t| then (t[..i], t[i + 1..]) else (t, "")
  }

  /** The thread id determines the app name and job id it was built from whenever the
      rendered app name has no '-' in it. */
  lemma {:induction false} ThreadIdRoundTrip(appName: JsValue, jobId: JsValue)
    requires '-' !in Render(appName)
    ensures SplitThreadId(GenerateThreadId(appName, jobId)) == (Render(appName), Render(jobId))
  {
    var a, j := Render(appName), Render(jobId);
    var t := GenerateThreadId(appName, jobId);
    assert t == a + "-" + j;
    assert t[|a|] == '-';
    assert forall k :: 0 <= k < |a| ==> t[k] == a[k];
    var i := FirstDash(t);
    assert i == |a|;
    assert t[..i] == a;
    assert t[i + 1..] == j;
  }

  /** Without that restriction thread ids of different deployments can coincide. */
  lemma ThreadIdCollision()
    ensures GenerateThreadId(Str("my-app"), Str("1")) == GenerateThreadId(Str("my"), Str("app-1"))
  {
  }

  /** The slackMessage literal; `meta` holds the enriched locals appName, domainName, commitMessage. */
  function BuildMessage(f: Fields, env: JsValue, meta: Metadata): SlackMessage {
    var info := GetStatusInfo(f.jobStatus);
    var appField := Markdown("*App Name:* `" + RenderOr(meta.appName, "unknown") + "`");
    var branchField := Markdown("*Branch:* `" + RenderOr(f.branchName, "unknown") + "`");
    var domainFields :=
      if Truthy(meta.domainName) then [Markdown("*Domain:* https://" + meta.domainName.s)] else [];
    var commitBlocks :=
      if Truthy(meta.commitMessage)
      then [Context([Markdown("*Commit:* `" + meta.commitMessage.s + "`")])]
      else [];
    var button := Button(PlainText("View Build Details", true), "primary",
                         BuildUrl(f.region, f.appId, f.branchName), "view_build_button");
    SlackMessage(
      "Amplify Build for " + RenderOr(f.branchName, "unknown branch") + " " + info.message,
      GenerateThreadId(meta.appName, f.jobId),
      [Header(PlainText(info.emoji + " Amplify Build " + info.message + " (" + Render(env) + ")", true)),
       Section([appField, branchField] + domainFields)]
      + commitBlocks
      + [Actions([button]),
         Context([Markdown("Occurred in region: " + Render(f.region))])])
  }

  /** Block order: header, section, the commit context only for a truthy commit message,
      actions, region context; so four blocks without a commit message and five with one. */
  lemma BlockLayout(f: Fields, env: JsValue, meta: Metadata)
    ensures var b := BuildMessage(f, env, meta).blocks;
      && |b| == (if Truthy(meta.commitMessage) then 5 else 4)
      && b[0].Header? && b[1].Section?
      && b[|b| - 2].Actions? && |b[|b| - 2].buttons| == 1
      && b[|b| - 1] == Context([Markdown("Occurred in region: " + Render(f.region))])
      && (Truthy(meta.commitMessage) <==> |b| == 5 && b[2].Context?)
      && (Truthy(meta.commitMessage) ==> b[2] == Context([Markdown("*Commit:* `" + meta.commitMessage.s + "`")]))
  {
  }

  /** The section lists the app name and the branch, and a domain field exactly when the
      domain name is truthy. */
  lemma SectionFields(f: Fields, env: JsValue, meta: Metadata)
    ensures var s := BuildMessage(f, env, meta).blocks[1];
      && s.Section?
      && |s.fields| == (if Truthy(meta.domainName) then 3 else 2)
      && s.fields[0] == Markdown("*App Name:* `" + RenderOr(meta.appName, "unknown") + "`")
      && s.fields[1] == Markdown("*Branch:* `" + RenderOr(f.branchName, "unknown") + "`")
      && (Truthy(meta.domainName) ==> s.fields[2] == Markdown("*Domain:* https://" + meta.domainName.s))
  {
  }

  /** The positions with a fallback never show an absent app name or branch: they show the
      value when it is truthy and the fallback word otherwise. */
  lemma FallbacksApplied(f: Fields, env: JsValue, meta: Metadata)
    ensures var m := BuildMessage(f, env, meta);
      && m.text == "Amplify Build for " + (if Truthy(f.branchName) then f.branchName.s else "unknown branch")
                   + " " + GetStatusInfo(f.jobStatus).message
      && (!Truthy(meta.appName) ==> m.blocks[1].fields[0] == Markdown("*App Name:* `unknown`"))
      && (!Truthy(f.branchName) ==> m.blocks[1].fields[1] == Markdown("*Branch:* `unknown`"))
  {
    assert "*App Name:* `" + "unknown" + "`" == "*App Name:* `unknown`";
    assert "*Branch:* `" + "unknown" + "`" == "*Branch:* `unknown`";
  }

  /** The header has no fallback for the environment label: an unset label reads "(undefined)". */
  lemma HeaderShowsUnsetEnvironment(f: Fields, meta: Metadata)
    ensures var info := GetStatusInfo(f.jobStatus);
      BuildMessage(f, Undefined, meta).blocks[0]
        == Header(PlainText(info.emoji + " Amplify Build " + info.message + " (undefined)", true))
  {
    var info := GetStatusInfo(f.jobStatus);
    var x := info.emoji + " Amplify Build " + info.message;
    assert x + " (" + "undefined" + ")" == x + " (undefined)";
  }

  /** The thread id has no fallback: a missing job id reads "undefined" after the app name. */
  lemma ThreadIdShowsMissingJobId(f: Fields, env: JsValue, meta: Metadata)
    requires f.jobId == Undefined
    ensures BuildMessage(f, env, meta).threadTs == Render(meta.appName) + "-undefined"
  {
    assert Render(meta.appName) + "-" + "undefined" == Render(meta.appName) + "-undefined";
  }

  /** The thread id meant to group one deployment's messages is keyed on the enriched app name:
      the same event yields one id when GetApp returns the app's name and another when it throws. */
  lemma ThreadIdDependsOnAppLookup()
    ensures var f := Fields(Str("us-east-1"), Str("app1"), Str("main"), Str("SUCCEED"), Str("1"));
      var found := Enrichment(f.appId, f.jobId, Ok(AppResponse(Str("MyApp"))), Fail, Fail);
      var fellBack := Enrichment(f.appId, f.jobId, Fail, Fail, Fail);
      && BuildMessage(f, Str("prod"), found).threadTs == "MyApp-1"
      && BuildMessage(f, Str("prod"), fellBack).threadTs == "app1-1"
  {
    assert "MyApp" + "-" + "1" == "MyApp-1";
    assert "app1" + "-" + "1" == "app1-1";
  }

  /** The console link has no fallback: a null region reads "null" and a missing branch
      reads "undefined". */
  lemma ConsoleUrlShowsAbsentValues(appId: JsValue)
    ensures BuildUrl(Null, appId, Undefined)
      == "https://" + "null" + ConsolePrefix + Render(appId) + "/branches/" + "undefined" + "/deployments"
  {
  }

  /** The button links to the deployment page of this app and branch in the event's region. */
  lemma ButtonLinksToConsole(f: Fields, env: JsValue, meta: Metadata)
    ensures var b := BuildMessage(f, env, meta).blocks;
      var url := b[|b| - 2].buttons[0].url;
      var head := "https://" + Render(f.region) + ConsolePrefix + Render(f.appId) + "/branches/";
      && b[|b| - 2].Actions?
      && url == head + Render(f.branchName) + "/deployments"
      && url[..|head|] == head
  {
  }
}
