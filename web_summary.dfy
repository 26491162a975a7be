/**
 * The web-summary widget (src/content-script/WebSummary.tsx): the same card
 * without a loading flag, a launcher with no iOS exception, and an
 * OPEN_WEB_SUMMARY handler that resets the card even when it is open.
 */
module WebSummary {
  import opened Wrappers
  import opened Text
  import opened Resolution
  import opened Prompt
  import opened Display

  /** The instruction sentence of this widget's prompt. */
  const Instruction: string := "Please use the contents to summarize the highlights."

  /** The message type that asks the widget to open. */
  const OpenWebSummary: string := "OPEN_WEB_SUMMARY"

  /**
   * The launcher condition: in "custom" mode the hostname must occur in the
   * sites string (a substring test), in "all" mode the hostname must not be
   * excluded by the site pattern; any other mode hides it.
   */
  function ShowLauncher(mode: string, sites: string, hostname: string,
                        siteRegex: Option<string -> bool>): (r: bool)
    ensures r <==> ((mode == "custom" && exists i :: OccursAt(sites, hostname, i))
                    || (mode == "all" && !Excluded(siteRegex, hostname)))
  {
    IncludesIffOccurs(sites, hostname);
    (mode == "custom" && Includes(sites, hostname))
    || (mode == "all" && !Excluded(siteRegex, hostname))
  }

  /** The hook state of one web-summary widget. */
  class Widget {
    var showCard: bool
    var supportSummary: bool
    var question: string

    /** The initial state: closed, supported, no question. */
    constructor ()
      ensures !showCard && supportSummary && question == ""
    {
      showCard := false;
      supportSummary := true;
      question := "";
    }

    /** `onSwitch`: toggles the card; opening clears the question, closing changes nothing else. */
    method Switch()
      modifies this
      ensures showCard == !old(showCard)
      ensures showCard ==> question == ""
      ensures !showCard ==> question == old(question)
      ensures supportSummary == old(supportSummary)
    {
      var cardState := !showCard;
      if cardState {
        question := "";
      }
      showCard := cardState;
    }

    /**
     * `onSummary` up to the awaited extraction. `html` is the page markup,
     * "" when none could be read. Returns whether extraction goes ahead.
     */
    method BeginSummary(html: string) returns (extracting: bool)
      modifies this
      ensures extracting <==> html != ""
      ensures question == "" && supportSummary == extracting
      ensures showCard == old(showCard)
    {
      supportSummary := true;
      question := "";
      if html == "" {
        supportSummary := false;
        extracting := false;
        return;
      }
      extracting := true;
    }

    /**
     * `onSummary` after its awaits, given what they produced. It writes the
     * state without looking at `showCard`.
     */
    method FinishSummary(article: Option<Article>, documentTitle: string, metaDescription: string,
                         navigatorLanguage: string, setting: LanguageSetting,
                         provider: string, summaryPrompt: (string, string) -> string)
      modifies this
      ensures var r := Resolve(article, documentTitle, metaDescription);
        && (r.supported ==> question == Compose(r.source, provider, summaryPrompt, Instruction, Language(setting, navigatorLanguage))
                             && supportSummary == old(supportSummary))
        && (!r.supported ==> question == old(question) && !supportSummary)
      ensures showCard == old(showCard)
    {
      var r := Resolve(article, documentTitle, metaDescription);
      if r.supported {
        question := Compose(r.source, provider, summaryPrompt, Instruction, Language(setting, navigatorLanguage));
        return;
      }
      supportSummary := false;
    }

    /** `onSummary` run to completion with no other event in between. */
    method Summarize(html: string, article: Option<Article>, documentTitle: string, metaDescription: string,
                     navigatorLanguage: string, setting: LanguageSetting,
                     provider: string, summaryPrompt: (string, string) -> string)
      modifies this
      ensures showCard == old(showCard)
      ensures supportSummary <==> html != "" && Resolve(article, documentTitle, metaDescription).supported
      ensures question != "" <==> supportSummary
      ensures supportSummary ==> question == Compose(Resolve(article, documentTitle, metaDescription).source,
                                                     provider, summaryPrompt, Instruction, Language(setting, navigatorLanguage))
    {
      var extracting := BeginSummary(html);
      if extracting {
        FinishSummary(article, documentTitle, metaDescription, navigatorLanguage, setting, provider, summaryPrompt);
      }
    }

    /**
     * The body of the runtime message listener: OPEN_WEB_SUMMARY clears the
     * question and opens the card whether or not it was open already, so a
     * shown answer is wiped. Other messages are ignored.
     */
    method OnMessage(messageType: string)
      modifies this
      ensures messageType == OpenWebSummary ==>
        showCard && question == "" && supportSummary == old(supportSummary)
      ensures messageType != OpenWebSummary ==> unchanged(this)
    {
      if messageType == OpenWebSummary {
        question := "";
        showCard := true;
      }
    }

    /** The card when open (its Summary button never disabled), else the launcher when its condition holds. */
    function Render(mode: string, sites: string, hostname: string,
                    siteRegex: Option<string -> bool>): (s: Screen)
      reads this
      ensures s.Open? <==> showCard
      ensures s.Launcher? <==> !showCard && ShowLauncher(mode, sites, hostname, siteRegex)
      ensures s.Open? ==> s.view == View(question, supportSummary, false)
    {
      if showCard then Open(CardContent())
      else if ShowLauncher(mode, sites, hostname, siteRegex) then Launcher
      else Nothing
    }

    /** The content the card shows in the current state. */
    function CardContent(): CardView
      reads this
    {
      View(question, supportSummary, false)
    }
  }

  /** Closing and reopening the card after a summary clears the answer. */
  method ReopenClearsAnswer(html: string, article: Option<Article>, documentTitle: string, metaDescription: string,
                            navigatorLanguage: string, setting: LanguageSetting,
                            provider: string, summaryPrompt: (string, string) -> string)
    returns (before: CardView, reopened: CardView)
    requires html != "" && Resolve(article, documentTitle, metaDescription).supported
    ensures before.Answer? && reopened == SummaryButton(false)
  {
    var w := new Widget();
    w.Switch();
    w.Summarize(html, article, documentTitle, metaDescription, navigatorLanguage, setting, provider, summaryPrompt);
    before := w.CardContent();
    w.Switch();
    w.Switch();
    reopened := w.CardContent();
  }

  /** While an answer is shown, OPEN_WEB_SUMMARY wipes it and shows the Summary button again. */
  method MessageWipesAnswer(html: string, article: Option<Article>, documentTitle: string, metaDescription: string,
                            navigatorLanguage: string, setting: LanguageSetting,
                            provider: string, summaryPrompt: (string, string) -> string)
    returns (before: CardView, after: CardView)
    requires html != "" && Resolve(article, documentTitle, metaDescription).supported
    ensures before.Answer? && after == SummaryButton(false)
  {
    var w := new Widget();
    w.Switch();
    w.Summarize(html, article, documentTitle, metaDescription, navigatorLanguage, setting, provider, summaryPrompt);
    before := w.CardContent();
    w.OnMessage(OpenWebSummary);
    after := w.CardContent();
  }
}
