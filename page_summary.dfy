/**
 * The page-summary widget (src/content-script/PageSummary.tsx): a card with a
 * loading flag, a launcher that always shows on iOS in "all" mode, and an
 * OPEN_WEB_SUMMARY handler that ignores the message while the card is open.
 */
module PageSummary {
  import opened Wrappers
  import opened Text
  import opened Resolution
  import opened Prompt
  import opened Display

  /** The instruction sentence of this widget's prompt. */
  const Instruction: string := "Summarize the highlights of the content and output a useful summary in a few sentences."

  /** The message type that asks the widget to open. */
  const OpenWebSummary: string := "OPEN_WEB_SUMMARY"

  /**
   * The launcher condition: in "custom" mode the hostname must occur in the
   * sites string (a substring test), in "all" mode the device is iOS or the
   * hostname is not excluded by the site pattern; any other mode hides it.
   */
  function ShowLauncher(mode: string, sites: string, hostname: string,
                        siteRegex: Option<string -> bool>, isIOS: bool): (r: bool)
    ensures r <==> ((mode == "custom" && exists i :: OccursAt(sites, hostname, i))
                    || (mode == "all" && (isIOS || !Excluded(siteRegex, hostname))))
  {
    IncludesIffOccurs(sites, hostname);
    (mode == "custom" && Includes(sites, hostname))
    || (mode == "all" && (isIOS || !Excluded(siteRegex, hostname)))
  }

  /** The hook state of one page-summary widget. */
  class Widget {
    var showCard: bool
    var supportSummary: bool
    var question: string
    var loading: bool

    /** The initial state: closed, supported, no question, not loading. */
    constructor ()
      ensures !showCard && supportSummary && question == "" && !loading
    {
      showCard := false;
      supportSummary := true;
      question := "";
      loading := false;
    }

    /**
     * `onSwitch`: toggles the card. Opening clears the question and the
     * loading flag; closing changes nothing else. The verdict is never reset.
     */
    method Switch()
      modifies this
      ensures showCard == !old(showCard)
      ensures showCard ==> question == "" && !loading
      ensures !showCard ==> question == old(question) && loading == old(loading)
      ensures supportSummary == old(supportSummary)
    {
      var cardState := !showCard;
      if cardState {
        question := "";
        loading := false;
      }
      showCard := cardState;
    }

    /**
     * `onSummary` up to the awaited extraction. `html` is the page markup,
     * "" when none could be read. Returns whether extraction goes ahead;
     * without markup the attempt ends here as unsupported.
     */
    method BeginSummary(html: string) returns (extracting: bool)
      modifies this
      ensures extracting <==> html != ""
      ensures loading && question == "" && supportSummary == extracting
      ensures showCard == old(showCard)
    {
      loading := true;
      supportSummary := true;
      question := "";
      if html == "" {
        supportSummary := false;
        extracting := false;
        return;
      }
      extracting := true;
    }

    /**
     * `onSummary` after its awaits, given what they produced: the extracted
     * article, the page's title and meta description, the browser language,
     * the user's language setting, the provider and `getSummaryPrompt`.
     * It writes the state without looking at `showCard`, so a result that
     * arrives after the card was closed or reopened still lands. It never
     * clears `loading`.
     */
    method FinishSummary(article: Option<Article>, documentTitle: string, metaDescription: string,
                         navigatorLanguage: string, setting: LanguageSetting,
                         provider: string, summaryPrompt: (string, string) -> string)
      modifies this
      ensures var r := Resolve(article, documentTitle, metaDescription);
        && (r.supported ==> question == Compose(r.source, provider, summaryPrompt, Instruction, Language(setting, navigatorLanguage))
                             && supportSummary == old(supportSummary))
        && (!r.supported ==> question == old(question) && !supportSummary)
      ensures showCard == old(showCard) && loading == old(loading)
    {
      var r := Resolve(article, documentTitle, metaDescription);
      if r.supported {
        question := Compose(r.source, provider, summaryPrompt, Instruction, Language(setting, navigatorLanguage));
        return;
      }
      supportSummary := false;
    }

    /**
     * `onSummary` run to completion with no other event in between: the
     * question is non-empty exactly when the page is supported, and the
     * loading flag stays set.
     */
    method Summarize(html: string, article: Option<Article>, documentTitle: string, metaDescription: string,
                     navigatorLanguage: string, setting: LanguageSetting,
                     provider: string, summaryPrompt: (string, string) -> string)
      modifies this
      ensures loading && showCard == old(showCard)
      ensures supportSummary <==> html != "" && Resolve(article, documentTitle, metaDescription).supported
      ensures question != "" <==> supportSummary
      ensures supportSummary ==> question == Compose(Resolve(article, documentTitle, metaDescription).source,
                                                     provider, summaryPrompt, Instruction, Language(setting, navigatorLanguage))
    {
      var extracting := BeginSummary(html);
      if extracting {
        FinishSummary(article, documentTitle, metaDescription, navigatorLanguage, setting, provider, summaryPrompt);
      }
    }

    /**
     * The body of the runtime message listener. OPEN_WEB_SUMMARY opens an
     * empty card unless the card is already open; other messages are ignored.
     * The body reads the current `showCard`. At run time the source registers
     * a fresh listener each time `showCard` changes and never removes the old
     * ones, so listeners that captured `showCard == false` keep firing; that
     * registration behaviour is not modelled.
     */
    method OnMessage(messageType: string)
      modifies this
      ensures messageType == OpenWebSummary && !old(showCard) ==>
        showCard && question == "" && !loading && supportSummary == old(supportSummary)
      ensures messageType != OpenWebSummary || old(showCard) ==> unchanged(this)
    {
      if messageType == OpenWebSummary {
        if showCard {
          return;
        }
        question := "";
        showCard := true;
        loading := false;
      }
    }

    /** The card when open (its Summary button disabled while loading), else the launcher when its condition holds. */
    function Render(mode: string, sites: string, hostname: string,
                    siteRegex: Option<string -> bool>, isIOS: bool): (s: Screen)
      reads this
      ensures s.Open? <==> showCard
      ensures s.Launcher? <==> !showCard && ShowLauncher(mode, sites, hostname, siteRegex, isIOS)
      ensures s.Open? ==> s.view == View(question, supportSummary, loading)
    {
      if showCard then Open(CardContent())
      else if ShowLauncher(mode, sites, hostname, siteRegex, isIOS) then Launcher
      else Nothing
    }

    /** The content the card shows in the current state. */
    function CardContent(): CardView
      reads this
    {
      View(question, supportSummary, loading)
    }
  }

  /**
   * Closing the card while a summary is loading and reopening it gives an
   * empty card with an enabled Summary button; the pending result then still
   * lands on the reopened card.
   */
  method ReopenWhileLoading(html: string, article: Option<Article>, documentTitle: string, metaDescription: string,
                            navigatorLanguage: string, setting: LanguageSetting,
                            provider: string, summaryPrompt: (string, string) -> string)
    returns (reopened: CardView, afterLateResult: CardView)
    requires html != ""
    ensures reopened == SummaryButton(false)
    ensures var r := Resolve(article, documentTitle, metaDescription);
      afterLateResult == if r.supported then Answer(Compose(r.source, provider, summaryPrompt, Instruction, Language(setting, navigatorLanguage)))
                         else Unsupported
  {
    var w := new Widget();
    w.Switch();
    var extracting := w.BeginSummary(html);
    w.Switch();
    w.Switch();
    reopened := w.CardContent();
    w.FinishSummary(article, documentTitle, metaDescription, navigatorLanguage, setting, provider, summaryPrompt);
    afterLateResult := w.CardContent();
  }

  /** A page found unsupported stays unsupported across closing and reopening the card. */
  method UnsupportedSurvivesReopen() returns (reopened: CardView)
    ensures reopened == Unsupported
  {
    var w := new Widget();
    w.Switch();
    var extracting := w.BeginSummary("");
    w.Switch();
    w.Switch();
    reopened := w.CardContent();
  }

  /** While an answer is shown, OPEN_WEB_SUMMARY leaves it in place. */
  method MessageKeepsAnswer(html: string, article: Option<Article>, documentTitle: string, metaDescription: string,
                            navigatorLanguage: string, setting: LanguageSetting,
                            provider: string, summaryPrompt: (string, string) -> string)
    returns (before: CardView, after: CardView)
    requires html != "" && Resolve(article, documentTitle, metaDescription).supported
    ensures before.Answer? && after == before
  {
    var w := new Widget();
    w.Switch();
    w.Summarize(html, article, documentTitle, metaDescription, navigatorLanguage, setting, provider, summaryPrompt);
    before := w.CardContent();
    w.OnMessage(OpenWebSummary);
    after := w.CardContent();
  }
}
