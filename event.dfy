/** The EventBridge event and the destructuring the handler applies to it. */
module Event {
  import opened Js

  /** `event.detail`; each field is Undefined when the detail object lacks it. */
  datatype Detail = Detail(appId: JsValue, branchName: JsValue, jobStatus: JsValue, jobId: JsValue)

  /** The event: `region` as sent (Undefined when absent); `detail` is None when it is missing or falsy. */
  datatype BuildEvent = BuildEvent(region: JsValue, detail: Option<Detail>)

  /** The five values the handler works with after destructuring. */
  datatype Fields = Fields(region: JsValue, appId: JsValue, branchName: JsValue, jobStatus: JsValue, jobId: JsValue)

  const DefaultRegion: string := "us-east-1"

  /** `const { detail, region = 'us-east-1' } = event; const { appId, ... } = detail || {};` */
  function Destructure(e: BuildEvent): Fields {
    var region := if e.region.Undefined? then Str(DefaultRegion) else e.region;
    match e.detail
    case None => Fields(region, Undefined, Undefined, Undefined, Undefined)
    case Some(d) => Fields(region, d.appId, d.branchName, d.jobStatus, d.jobId)
  }

  /** A destructuring default applies only to `undefined`: a `null` or empty region is kept as sent. */
  lemma RegionDefault(e: BuildEvent)
    ensures e.region.Undefined? ==> Destructure(e).region == Str(DefaultRegion)
    ensures !e.region.Undefined? ==> Destructure(e).region == e.region
  {
  }

  /** A missing detail leaves every detail field absent rather than failing. */
  lemma MissingDetail(e: BuildEvent)
    requires e.detail.None?
    ensures var f := Destructure(e);
      f.appId == f.branchName == f.jobStatus == f.jobId == Undefined
  {
  }
}
