/**
 * How the two widgets differ on the same inputs: the iOS exception of the
 * page-summary launcher and the instruction sentence of the prompt.
 */
module Variants {
  import opened Wrappers
  import opened Text
  import opened Prompt
  import opened Display
  import PageSummary
  import WebSummary

  /** Off iOS the two launchers agree on every mode, sites string, hostname and pattern. */
  lemma LaunchersAgreeOffIOS(mode: string, sites: string, hostname: string, siteRegex: Option<string -> bool>)
    ensures PageSummary.ShowLauncher(mode, sites, hostname, siteRegex, false)
        == WebSummary.ShowLauncher(mode, sites, hostname, siteRegex)
  {
  }

  /**
   * In "all" mode on iOS the page-summary launcher shows even on an excluded
   * hostname, where the web-summary launcher stays hidden.
   */
  lemma IOSOverridesExclusion(sites: string, hostname: string, siteRegex: Option<string -> bool>)
    requires Excluded(siteRegex, hostname)
    ensures PageSummary.ShowLauncher("all", sites, hostname, siteRegex, true)
    ensures !PageSummary.ShowLauncher("all", sites, hostname, siteRegex, false)
    ensures !WebSummary.ShowLauncher("all", sites, hostname, siteRegex)
  {
  }

  /** The two widgets never compose the same question from the same inputs. */
  lemma QuestionsDiffer(source: string, provider: string, summaryPrompt: (string, string) -> string, language: string)
    ensures Compose(source, provider, summaryPrompt, PageSummary.Instruction, language)
         != Compose(source, provider, summaryPrompt, WebSummary.Instruction, language)
  {
  }

  /** The allow-list is a string, so a hostname that merely occurs inside a listed site also matches. */
  lemma SitesMatchBySubstring(siteRegex: Option<string -> bool>)
    ensures PageSummary.ShowLauncher("custom", "example.com", "example.com", siteRegex, false)
    ensures !PageSummary.ShowLauncher("custom", "example.com", "other.com", siteRegex, false)
    ensures WebSummary.ShowLauncher("custom", "example.com", "ample.com", siteRegex)
  {
    ListedSiteMatches();
    SuffixOfListedSiteMatches();
    UnlistedSiteDoesNotMatch();
  }

  lemma ListedSiteMatches()
    ensures exists i :: OccursAt("example.com", "example.com", i)
  {
    assert OccursAt("example.com", "example.com", 0);
  }

  lemma SuffixOfListedSiteMatches()
    ensures exists i :: OccursAt("example.com", "ample.com", i)
  {
    assert OccursAt("example.com", "ample.com", 2);
  }

  lemma UnlistedSiteDoesNotMatch()
    ensures !exists i :: OccursAt("example.com", "other.com", i)
  {
    OccurrenceKeepsChars("example.com", "other.com");
    assert 't' in "other.com";
    assert 't' !in "example.com";
  }
}
