# Amplify build notifications to Slack — a Dafny model

This project models `files/index.mjs`, the AWS Lambda handler that receives an AWS Amplify
build-state-change event from EventBridge and posts a Slack Block Kit message to an incoming
webhook. The handler does four things, and the model follows them module by module:

- **Status classification** (`Status`): `getStatusInfo` maps the job status to an emoji and a phrase.
- **Destructuring** (`Event`): the event's `region` gets its `'us-east-1'` default, and a missing
  `detail` leaves `appId`, `branchName`, `jobStatus` and `jobId` undefined.
- **Enrichment** (`Enrich`): the three Amplify SDK lookups (GetApp, ListDomainAssociations,
  GetJob) run in one `try` block and overwrite the locals `appName`, `domainName` and
  `commitMessage`. `EnrichMetadata` is that block as a method with an early exit at the first
  lookup that throws. `Enrichment` and `Requests` are its closed-form specification, a prefix cut
  over the planned lookups.
- **Message assembly and delivery** (`Slack`, `Handler`): `BuildMessage` is the `slackMessage`
  literal, with `BuildUrl` and `GenerateThreadId`. `Handle` is the handler body: the webhook
  check, enrichment, assembly and the mapping of the delivery outcome to the result object.

JavaScript values are `Js.JsValue` (`Undefined | Null | Str(s)`). A value is truthy exactly when
it is a non-empty string. A template literal spells an absent value out as `undefined` or `null`.
The SDK responses, the webhook outcome and the two environment variables are parameters. What
the handler does to the outside world is returned as data: the SDK requests it issues, in order,
and the POST it makes (URL and message), if any.

Three behaviours of the handler are easy to misread:

- The three lookups share one `try` block, so a throwing lookup stops the later ones. They are
  not isolated from each other (`Enrich.LookupsAreNotIsolated`).
- The status literal is `SUCCEED`; `SUCCEEDED` falls to the default case. An absent or empty
  status reads `unknown`, not the raw value.
- Positions without a fallback show absent values literally: the header's environment label,
  the console link and the thread id can contain `undefined` (and `null` for a null region).
- The thread id is built from the enriched app name, so the same deployment gets a different
  thread id depending on whether the GetApp lookup threw (`Slack.ThreadIdDependsOnAppLookup`).

## Model

| member | source | states |
|---|---|---|
| Status.GetStatusInfo | files/index.mjs:49-60 | the phrase is never blank; the emoji is the information sign exactly when the status is not one of `SUCCEED`, `FAILED`, `STARTED`; an unrecognised status shows its own text, or `unknown` when it is falsy |
| Status.StatusTable | files/index.mjs:50-58 | the fixed pairs for `SUCCEED`, `FAILED`, `STARTED`; `SUCCEEDED` falls to the default; undefined, null and empty statuses read `unknown` |
| Status.EmojiIdentifiesStatus | files/index.mjs:50-58 | two statuses with the same emoji are equal when one of them is recognised, so the emoji identifies the outcome |
| Event.RegionDefault | files/index.mjs:89 | the region defaults to `us-east-1` only when it is undefined; a null or empty region is kept |
| Event.MissingDetail | files/index.mjs:90 | a missing detail leaves all four detail fields undefined instead of failing |
| Enrich.Plan | files/index.mjs:103-123 | the lookups go app, then domains, then job; the job lookup is planned only for a truthy job id |
| Enrich.EnrichMetadata | files/index.mjs:97-133 | the step-by-step `try` block with its early exit computes the prefix-cut enrichment and issues exactly the requests up to the first one that throws |
| Enrich.RequestsStopAtFirstFailure | files/index.mjs:101-133 | the requests sent are a non-empty prefix of the plan; all but the last resolved; the last threw exactly when some planned lookup throws; otherwise the whole plan was sent |
| Enrich.EarlierFailureHidesLaterLookups | files/index.mjs:101-133 | a throwing app lookup leaves all three locals at their defaults whatever the later lookups would return; a throwing domain lookup makes the job lookup irrelevant |
| Enrich.EarlierValuesKept | files/index.mjs:101-133 | a throwing domain lookup keeps the app name and leaves domain and commit message null; a throwing job lookup keeps app name and domain and leaves the commit message null |
| Enrich.LookupsAreNotIsolated | files/index.mjs:101-133 | a failed app lookup discards a domain and a commit message that the later lookups would have delivered |
| Enrich.ResolvedLookups | files/index.mjs:105-128 | with all lookups resolved: the app name is the returned name if truthy, else the app id; the domain is the first association's, else null; the commit message is the summary's, falling back to the job's, and null without a job id |
| Enrich.AppNameNeverBlank | files/index.mjs:97-105 | a truthy app id gives a truthy app name whatever the lookups do |
| Enrich.NoJobIdNoJobLookup | files/index.mjs:121-129 | without a truthy job id no GetJob request is sent and the commit message stays null |
| Slack.ThreadIdRoundTrip | files/index.mjs:68-70 | the thread id can be split back into app name and job id when the app name has no `-` |
| Slack.ThreadIdCollision | files/index.mjs:68-70 | without that restriction two different deployments can share a thread id |
| Slack.ThreadIdDependsOnAppLookup | files/index.mjs:62-70 | the thread id is keyed on the enriched app name, not on the event alone: one event gives `MyApp-1` when GetApp returns the name `MyApp` and `app1-1` when GetApp throws |
| Slack.BlockLayout | files/index.mjs:148-198 | the blocks are header, section, an optional commit context, actions, region context: 5 blocks exactly when the commit message is truthy, else 4 |
| Slack.SectionFields | files/index.mjs:157-164 | the section holds the app name and branch fields, plus a `*Domain:* https://<domain>` field exactly when the domain is truthy |
| Slack.FallbacksApplied | files/index.mjs:146-161 | the fallback text, the app name field and the branch field show `unknown branch` / `unknown` instead of an absent value |
| Slack.HeaderShowsUnsetEnvironment | files/index.mjs:153 | the header applies no fallback: an unset environment label reads `(undefined)` |
| Slack.ThreadIdShowsMissingJobId | files/index.mjs:142-147 | the thread id applies no fallback: a missing job id reads `undefined` |
| Slack.ConsoleUrlShowsAbsentValues | files/index.mjs:136 | the console link applies no fallback: a null region reads `null`, a missing branch `undefined` |
| Slack.ButtonLinksToConsole | files/index.mjs:136 | the button links to the deployments page of the event's app and branch in the event's region |
| Handler.Handle | files/index.mjs:77-219 | without a truthy webhook URL: 500 `SLACK_WEBHOOK_URL is not configured.`, no request and no POST; otherwise the enrichment requests, one POST of the assembled message, and 200 exactly when delivery is accepted, else 500 `Failed to send notification.`; it always returns |

## Left out

- The AWS SDK client and its commands: each lookup is an input outcome (`Lookup.Fail` for a throw, `Lookup.Ok` with the fields the handler reads), and the region passed to the client is not modelled.
- `fetch`, the HTTP request headers and `JSON.stringify`: delivery is an input outcome (accepted, rejected with a status and body, or unreachable), and the message is posted as a value.
- `process.env`, the `DEBUG` flag and all logging: the webhook URL and the environment label are the `Config` parameter; the error text built from a rejected response only feeds a log line and is dropped.
- `async`/`await`: execution is sequential, so the model is straight-line code.
- Non-string values in event or response fields (numbers, objects) and an event that is not an object: the model admits strings, `null` and `undefined` only.
- A domain association entry that is itself null (the property read on it would throw): associations are modelled by their `domainName` values.
- test-runner.mjs is not part of this model: it is an interactive harness that reads a file, sets environment variables and calls the handler.
