/**
 * What a widget renders: nothing, the launcher button, or the open card with
 * one of three contents (src/content-script/PageSummary.tsx:106-176,
 * src/content-script/WebSummary.tsx:91-158). Markup, class names and icons
 * are left out; only the choice between the views is kept.
 */
module Display {
  import opened Wrappers

  /** The content of an open card. */
  datatype CardView =
    | Answer(question: string)        // the answer component, fed with the question
    | Unsupported                     // "Sorry, the summary of this page is not supported."
    | SummaryButton(disabled: bool)   // the Summary button that starts `onSummary`

  /** The whole widget. */
  datatype Screen = Nothing | Launcher | Open(view: CardView)

  /**
   * `question ? <answer/> : !supportSummary ? 'Sorry…' : <button disabled=…/>`:
   * the answer exactly when there is a question, otherwise the apology exactly
   * when the page was found unsupported, otherwise the button.
   */
  function View(question: string, supportSummary: bool, buttonDisabled: bool): (v: CardView)
    ensures v.Answer? <==> question != ""
    ensures v.Unsupported? <==> question == "" && !supportSummary
    ensures v.Answer? ==> v.question == question
    ensures v.SummaryButton? ==> v.disabled == buttonDisabled
  {
    if question != "" then Answer(question)
    else if !supportSummary then Unsupported
    else SummaryButton(buttonDisabled)
  }

  /**
   * `siteRegex?.test(hostname)` read as a boolean: a missing pattern gives
   * `undefined`, so the hostname counts as not excluded. The regular
   * expression itself is an arbitrary predicate on hostnames.
   */
  function Excluded(siteRegex: Option<string -> bool>, hostname: string): (r: bool)
    ensures siteRegex.None? ==> !r
    ensures siteRegex.Some? ==> (r <==> siteRegex.value(hostname))
  {
    siteRegex.Some? && siteRegex.value(hostname)
  }
}
