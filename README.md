# Page-summary widgets: a Dafny model

This project models the decision logic inside the two content-script widgets
of a browser extension that summarises web pages, `PageSummary` and
`WebSummary`. Each widget shows a launcher button on allowed sites. The button
opens a card. On request the card extracts the article from the page, picks a
source text, strips its markup and composes a question for the answer
component. The widget can also be opened by an `OPEN_WEB_SUMMARY` runtime
message.

Modules:

- `Wrappers`: `Option`, for values that may be `undefined`.
- `Text`: JavaScript's `||` on strings, the first non-empty value of a `||`
  chain, and `String.prototype.includes` as a substring test.
- `Markup`: `replace(/<[^>]+>/g, '')` as a recursive function on `seq<char>`.
  The module proves that the output has no tag left, is a subsequence of the
  input and is a fixed point of stripping.
- `Resolution`: title, description, source text and the supported verdict,
  computed from the extractor's article, `document.title` and the meta
  description.
- `Prompt`: the language choice (`Auto` → browser language) and the question
  template.
- `Display`: the card view (answer / "not supported" / Summary button) and the
  launcher's site-pattern test.
- `PageSummary`, `WebSummary`: each holds a `Widget` class whose fields are the
  hook state. Its methods are `Switch` (`onSwitch`), `BeginSummary` and
  `FinishSummary` (the halves of `onSummary` before and after its awaits),
  `Summarize` (both halves with nothing in between), `OnMessage` (the
  listener body) and `Render`. Each module also has its own launcher predicate
  and scenario methods.
- `Variants`: how the two widgets differ on the same inputs.

Conventions: a JavaScript string that may be missing is a Dafny `string` in
which `""` means missing, because `||`, `?:` and `!html` treat `""` as absent.
The extractor's result is an `Option<Article>`. `getSummaryPrompt` is a
function parameter `(string, string) -> string`. The site regular expression
is an optional predicate `Option<string -> bool>`. Environment reads are
parameters: markup, `document.title`, the meta description, hostname,
`navigator.language`, the user and provider configuration, and `isIOS`.

Behaviour of the code worth knowing:

- Closing the card only flips `showCard`. It does not clear the question or
  the loading flag.
- `WebSummary`'s message handler resets an open card too.
- A late `onSummary` result is written even after the card was closed or
  reopened. There is no relevance check.
- Nothing ever sets `loading` back to `false` after a summary. Only opening
  the card does.

## Model

| member | source | states |
|---|---|---|
| Text.FirstNonEmpty | src/content-script/PageSummary.tsx:60-64 | the value of a `a \|\| b \|\| ''` chain is "" iff every candidate is empty, and otherwise the first non-empty candidate |
| Text.Or | src/content-script/PageSummary.tsx:60-64 | `a \|\| b` on strings is one of its operands, and is "" iff both are "" |
| Text.Includes | src/content-script/PageSummary.tsx:163 | `sites.includes(hostname)`: a prefix (and so the empty hostname) is always included, and an included hostname is never longer than the sites string; the full meaning is stated by `Text.IncludesIffOccurs` |
| Markup.StripTags | src/content-script/WebSummary.tsx:67 | `replace(/<[^>]+>/g, '')` never lengthens its input; its other properties are stated by the `Markup` lemma rows |
| Display.Excluded | src/content-script/WebSummary.tsx:148 | `siteRegex?.test(hostname)`: a missing pattern never excludes, a given pattern excludes exactly the hostnames it matches |
| Text.IncludesIffOccurs | src/content-script/PageSummary.tsx:163 | `sites.includes(hostname)` holds iff the hostname occurs as a contiguous substring of the sites string |
| Text.IncludedCharsOccur | src/content-script/WebSummary.tsx:147 | an included hostname uses only characters of the sites string |
| Markup.CloseFrom | src/content-script/PageSummary.tsx:73 | the end of a `[^>]+>` run is the first `>` at or after the position, or the end of the text |
| Markup.StripTagsSubsequence | src/content-script/PageSummary.tsx:73 | the stripped text is a subsequence of the source text, never longer, with no character the source lacks |
| Markup.StripTagsDropsHead | src/content-script/PageSummary.tsx:73 | a leading `<x>` with `x` non-empty and free of `>` is removed whole |
| Markup.KeepsPlainPrefix | src/content-script/PageSummary.tsx:73 | a prefix with no `<` passes through unchanged |
| Markup.TagFreeIffInert | src/content-script/PageSummary.tsx:73 | "no match of `<[^>]+>`" is equivalent to "every `<` followed later by `>` is immediately followed by `>`" |
| Markup.StripTagsInert | src/content-script/PageSummary.tsx:73 | stripped text satisfies the pointwise no-tag condition |
| Markup.StripTagsTagFree | src/content-script/PageSummary.tsx:73 | stripped text contains no `<`, one or more non-`>` characters, `>` |
| Markup.InertUnchanged | src/content-script/PageSummary.tsx:73 | text with no tag is returned unchanged |
| Markup.StripTagsFixedIffTagFree | src/content-script/PageSummary.tsx:73 | stripping leaves a text unchanged iff the text has no tag |
| Markup.NoOpenUnchanged | src/content-script/WebSummary.tsx:67 | text without `<` is returned unchanged |
| Markup.StripTagsIdempotent | src/content-script/WebSummary.tsx:67 | stripping twice equals stripping once |
| Markup.StripTagsNested | src/content-script/WebSummary.tsx:67 | `<p>hello<b>world</b></p>` strips to `hello` followed by `world` for plain words |
| Resolution.Resolve | src/content-script/PageSummary.tsx:60-67 | the title and the description are the first non-empty values of their fallback chains; the page is supported iff the content or the description is non-empty; a supported page has a non-empty source |
| Resolution.FirstNonEmptyOfTwo | src/content-script/WebSummary.tsx:54-58 | `a \|\| b \|\| ''` is the first non-empty of the three |
| Resolution.ContentTakesPriority | src/content-script/PageSummary.tsx:65 | with content, the source is description then content, the page is supported, and the source does not depend on the title |
| Resolution.DescriptionOnly | src/content-script/WebSummary.tsx:59-61 | without content, the source is title then description and the page is supported iff the description is non-empty |
| Resolution.VerdictIgnoresTitle | src/content-script/PageSummary.tsx:67 | the verdict never depends on the title; with no content and no description the page is unsupported |
| Resolution.NothingExtracted | src/content-script/WebSummary.tsx:54-61 | with no article, the title, description, source and verdict come from the page metadata alone |
| Resolution.MarkedUpContentResolves | src/content-script/PageSummary.tsx:65-73 | content `<p>hello<b>world</b></p>` with no description is supported and its stripped source is the words alone |
| Prompt.Language | src/content-script/PageSummary.tsx:79 | `Auto` takes the browser language, any other setting is used verbatim |
| Prompt.Compose | src/content-script/PageSummary.tsx:72-80 | the question starts with `Content:  `, followed by `getSummaryPrompt` of the stripped source, then the `Instructions: ` heading with the widget's instruction sentence, and ends with the `Please write in <lang> language.` line |
| Prompt.ComposeDeterminesLanguage | src/content-script/WebSummary.tsx:73 | two questions with the same content and instruction are equal only if their languages are equal |
| Prompt.ComposeDistinguishesInstructions | src/content-script/WebSummary.tsx:71 | instruction sentences of different lengths give different questions |
| Prompt.ComposeOfStripped | src/content-script/WebSummary.tsx:66-69 | composing from an already-stripped source gives the same question |
| Display.View | src/content-script/PageSummary.tsx:134-159 | the card shows the answer iff the question is non-empty, the "not supported" message iff there is no question and the page is unsupported, otherwise the Summary button |
| PageSummary.ShowLauncher | src/content-script/PageSummary.tsx:163-164 | shown iff mode `custom` and the hostname occurs in the sites string, or mode `all` and (iOS or the pattern does not match); any other mode hides it |
| PageSummary.Widget.constructor | src/content-script/PageSummary.tsx:22-25 | starts closed, supported, with no question, not loading |
| PageSummary.Widget.Switch | src/content-script/PageSummary.tsx:27-38 | toggles the card; opening clears the question and loading; closing keeps them; the verdict is untouched |
| PageSummary.Widget.BeginSummary | src/content-script/PageSummary.tsx:44-55 | sets loading and clears the question; the verdict is reset to supported, and becomes unsupported when no markup was read |
| PageSummary.Widget.FinishSummary | src/content-script/PageSummary.tsx:57-85 | a supported page sets the question to the composed prompt; otherwise the verdict becomes unsupported and the question is kept; `showCard` and `loading` are never touched |
| PageSummary.Widget.Summarize | src/content-script/PageSummary.tsx:44-85 | with no interleaving: the verdict holds iff markup was read and the page is supported; the question is non-empty iff supported; loading stays set |
| PageSummary.Widget.OnMessage | src/content-script/PageSummary.tsx:88-98 | OPEN_WEB_SUMMARY on a closed card opens it with no question and not loading; on an open card, or for any other message, nothing changes |
| PageSummary.Widget.Render | src/content-script/PageSummary.tsx:106-176 | the card is rendered iff it is open; the launcher iff closed and its condition holds; the button is disabled while loading |
| PageSummary.ReopenWhileLoading | src/content-script/PageSummary.tsx:27-85 | closing mid-summary and reopening shows an enabled Summary button; the late result then lands on the reopened card |
| PageSummary.UnsupportedSurvivesReopen | src/content-script/PageSummary.tsx:27-55 | an unsupported verdict survives closing and reopening the card |
| PageSummary.MessageKeepsAnswer | src/content-script/PageSummary.tsx:88-98 | OPEN_WEB_SUMMARY leaves a shown answer in place |
| WebSummary.ShowLauncher | src/content-script/WebSummary.tsx:147-148 | shown iff mode `custom` and the hostname occurs in the sites string, or mode `all` and the pattern does not match; no iOS exception |
| WebSummary.Widget.constructor | src/content-script/WebSummary.tsx:20-22 | starts closed, supported, with no question |
| WebSummary.Widget.Switch | src/content-script/WebSummary.tsx:24-34 | toggles the card; opening clears the question; closing keeps it; the verdict is untouched |
| WebSummary.Widget.BeginSummary | src/content-script/WebSummary.tsx:40-49 | clears the question; the verdict is reset to supported, and becomes unsupported when no markup was read |
| WebSummary.Widget.FinishSummary | src/content-script/WebSummary.tsx:51-79 | a supported page sets the question to the composed prompt; otherwise the verdict becomes unsupported and the question is kept |
| WebSummary.Widget.Summarize | src/content-script/WebSummary.tsx:40-79 | with no interleaving: the verdict holds iff markup was read and the page is supported; the question is non-empty iff supported |
| WebSummary.Widget.OnMessage | src/content-script/WebSummary.tsx:82-88 | OPEN_WEB_SUMMARY always opens the card with no question, even when it is open; the verdict is kept; other messages change nothing |
| WebSummary.Widget.Render | src/content-script/WebSummary.tsx:91-158 | the card is rendered iff it is open; the launcher iff closed and its condition holds; the button is never disabled |
| WebSummary.ReopenClearsAnswer | src/content-script/WebSummary.tsx:24-34 | closing and reopening after a summary clears the answer |
| WebSummary.MessageWipesAnswer | src/content-script/WebSummary.tsx:82-88 | OPEN_WEB_SUMMARY wipes a shown answer and shows the Summary button again |
| Variants.LaunchersAgreeOffIOS | src/content-script/WebSummary.tsx:147-148 | off iOS the two launcher conditions agree on all inputs |
| Variants.IOSOverridesExclusion | src/content-script/PageSummary.tsx:164 | in `all` mode on an excluded host, only the page widget on iOS shows the launcher |
| Variants.QuestionsDiffer | src/content-script/WebSummary.tsx:71 | the two widgets' instruction sentences make their questions differ for every source, provider, `getSummaryPrompt` and language |
| Variants.SitesMatchBySubstring | src/content-script/PageSummary.tsx:16 | the sites string `example.com` admits `example.com` and also `ample.com`, and rejects `other.com` |

## Left out

- JSX markup, class names, icons and logos. Only the choice of view is modelled.
- The article extractor's algorithm is not part of this model. Its result is an `Option<Article>` input.
- `getSummaryPrompt`, `getUserConfig`, `getProviderConfigs`, the `Language` enum and `isIOS` are not part of this model. They are parameters.
- DOM and environment reads (`document.querySelector`, `document.title`, `location`, `navigator.language`) are parameters. A missing `<html>` element or meta tag is the empty string.
- The site regular expression's semantics are out. It is an arbitrary hostname predicate, and absent means "not excluded".
- `openOptionsPage` (`OPEN_OPTIONS_PAGE`) is left out. It is a fire-and-forget message with no state change.
- Listener registration in `useEffect` is not modelled; `OnMessage` is the listener body reading the current `showCard`. In `PageSummary` a new listener is added whenever `showCard` changes and none is removed. At run time, stale listeners that saw `showCard == false` therefore still reopen an open card.
- Preact's state batching, the functional `setShowCard` updater and event-loop scheduling are not modelled. Interleaving is captured only by splitting `onSummary` into `BeginSummary` and `FinishSummary`, with arbitrary calls allowed in between.
- Rejected promises from extraction or configuration reads are not modelled. The source does not catch them, so such an attempt leaves the state as `BeginSummary` left it.
- `console.log` is left out.
