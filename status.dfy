/** Classification of an Amplify job status into the emoji and phrase shown in the message. */
module Status {
  import opened Js

  datatype StatusInfo = StatusInfo(emoji: string, message: string)

  const SucceededEmoji: string := "\U{2705}"            // check mark button
  const FailedEmoji: string := "\U{274C}"               // cross mark
  const StartedEmoji: string := "\U{1F680}"             // rocket
  const InfoEmoji: string := "\U{2139}\U{FE0F}"         // information source, emoji presentation
  const SucceededMessage: string := "succeeded \U{1F389}"  // party popper
  const FailedMessage: string := "failed \U{1F622}"        // crying face
  const StartedMessage: string := "started"

  /** The three status strings the switch recognises; note the literal is `SUCCEED`. */
  predicate Recognised(status: JsValue) {
    status == Str("SUCCEED") || status == Str("FAILED") || status == Str("STARTED")
  }

  /** getStatusInfo: a total mapping from the job status to (emoji, message). */
  function GetStatusInfo(status: JsValue): (info: StatusInfo)
    ensures info.message != ""
    ensures info.emoji == InfoEmoji <==> !Recognised(status)
    ensures !Recognised(status) ==> info.message == RenderOr(status, "unknown")
  {
    if status == Str("SUCCEED") then StatusInfo(SucceededEmoji, SucceededMessage)
    else if status == Str("FAILED") then StatusInfo(FailedEmoji, FailedMessage)
    else if status == Str("STARTED") then StatusInfo(StartedEmoji, StartedMessage)
    else StatusInfo(InfoEmoji, RenderOr(status, "unknown"))
  }

  /** The fixed table, including the spellings that fall through to the default case. */
  lemma StatusTable()
    ensures GetStatusInfo(Str("SUCCEED")) == StatusInfo(SucceededEmoji, SucceededMessage)
    ensures GetStatusInfo(Str("FAILED")) == StatusInfo(FailedEmoji, FailedMessage)
    ensures GetStatusInfo(Str("STARTED")) == StatusInfo(StartedEmoji, StartedMessage)
    ensures GetStatusInfo(Str("SUCCEEDED")) == StatusInfo(InfoEmoji, "SUCCEEDED")
    ensures GetStatusInfo(Undefined) == StatusInfo(InfoEmoji, "unknown")
    ensures GetStatusInfo(Null) == StatusInfo(InfoEmoji, "unknown")
    ensures GetStatusInfo(Str("")) == StatusInfo(InfoEmoji, "unknown")
  {
  }

  /** The emoji alone tells the three recognised outcomes and the default apart. */
  lemma EmojiIdentifiesStatus(a: JsValue, b: JsValue)
    requires GetStatusInfo(a).emoji == GetStatusInfo(b).emoji
    ensures Recognised(a) ==> a == b
  {
  }
}
