# chrome-split-extend, modelled in Dafny

The extension broadcasts one question to several AI chat sites. A control panel and a background service open the sites in tabs and relay the question to every tab. A split-view page shows the sites side by side in frames. A window manager tiles tabs into windows of their own. A content script in each chat page finds the page's input box and send button, fills the box and presses send. Configuration tools and a wizard find and store the CSS selectors of those two elements for each site.

This project models the deterministic core of those pieces:

- **Page-side fill and send.** The selector cascades that find the input box and the send button, the fill step for each kind of element, and the click, fallback-chain or Enter dispatch. Modules: `Dom`, `Selectors`, `IframeInjector`, `Injector`, `InteractionStrategies`, `FallbackStrategies`.
- **Selector generation and scoring.** Generated selectors, candidate scores, the choice of the best candidate and the confidence levels. Modules: `Css`, `Ranking`, `ElementPicker`, `Detector`, `ConfigGenerator`, `BatchConfigGenerator`.
- **Configuration keying.** The hostname-to-key rule, legacy key normalisation, status and icon rules, and the preset table. Modules: `SiteIds`, `SiteConfigs`, `SelectorConfig`.
- **Pages and services.** The selection, layout and bookkeeping state of the pages and the background service. Modules: `Sites`, `SplitView`, `TabSelector`, `WindowManager`, `AiTabs`, `Background`, `MainPanel`.

The DOM is a sequence of element records in document order. Each record names its parent by index. A selector is a string. An abstract engine says whether a string parses and which elements it matches, and `querySelector` returns the first match in document order. What the scripts do to a page is an appended log of events and native calls.

Every part of the extension state that the source updates in place is a class with `modifies` clauses on its methods:

- the page (`Dom.Page`);
- the picker (`ElementPicker.Picker`);
- the wizard (`SelectorConfig.Wizard`);
- the split view (`SplitView.Page`);
- the tab selector (`TabSelector.Selector`);
- the window manager (`WindowManager.Manager`);
- the background service (`Background.Service`);
- the control panel (`MainPanel.Panel`).

The fallback chain's strategy table is an `array` sorted in place. Everything the browser answers is a parameter of the operation that receives it: tab ids, stored values, which tabs still exist, what a content script replies, the clock and the user's confirmations.

## Model

| member | source | states |
|---|---|---|
| Common.CutBefore | tools/batch-config-generator.js:216 | `split(sep)[0]`: the prefix of the input before the first occurrence of the separator (no occurrence starts inside it, and it is either the whole input or followed by the separator) |
| Common.Lower | tools/detector.js:79 | `toLowerCase` over ASCII: same length, every character lower-cased |
| Common.TrimStart | main/main.js:257 | the leading part of `trim`: a suffix of the input, every dropped character is white space, and it does not start with white space |
| Common.TrimEnd | main/main.js:257 | the trailing part of `trim`: a prefix of the input, every dropped character is white space, and it does not end with white space |
| Common.TrimEmptyIffBlank | main/main.js:259-262 | a trimmed text is empty exactly when every character of the input is white space (both directions) |
| Common.TrimIsTrimmed | main/main.js:298-301 | a trimmed field neither starts nor ends with white space |
| Common.NatToString | main/main.js:309 | `String(Date.now())` as used in an id: a non-empty decimal numeral without leading zeros whose value is the number |
| Common.ContainsIffOccurs | content-scripts/injector.js:8-12 | `includes` holds exactly when the substring occurs at some offset, in both directions |
| Common.ContainsInPrefix | tools/batch-config-generator.js:216 | a substring found in a prefix is found in the whole string |
| SiteIds.IdChar | tab-selector/tab-selector.js:164 | one character of `replace(/[^a-zA-Z0-9]/g, '_')`: a letter or digit is kept, anything else becomes '_', and the result is always an id character |
| SiteIds.SiteId | tab-selector/tab-selector.js:164 | the id of a hostname has the hostname's length |
| SiteIds.SiteIdAt | split-view/split-view.js:652 | position by position, the id is the hostname with every non-alphanumeric character replaced by '_' |
| SiteIds.SiteIdShape | content-scripts/iframe-injector.js:12 | every id the rule produces is made only of letters, digits and '_' |
| SiteIds.SiteIdFixesIdShape | selector-config/selector-config.js:124 | the rule leaves a string already made of id characters unchanged |
| SiteIds.SiteIdIdempotent | split-view/split-view.js:699 | applying the rule to an id gives the same id |
| Sites.EligibleTabs | tab-selector/tab-selector.js:24-29 | the tab filter keeps exactly the tabs whose URL is http(s) and not a browser or extension page |
| Sites.EligibleTabsAppend | tab-selector/tab-selector.js:24-29 | a tab added at the end of the list is kept at the end exactly when it is eligible, so the filter keeps the browser's order and every occurrence |
| Sites.SiteFromTab | tab-selector/tab-selector.js:161-169 | a tab becomes an enabled, non-custom site whose id is the hostname rule's id, whose name is the title or else the hostname, and whose url and hostname are the tab's |
| Sites.EnabledSites | main/main.js:152 | `filter(site => site.enabled)`: exactly the enabled sites are kept |
| Sites.EnabledSitesIdempotent | background.js:48 | filtering an already filtered list changes nothing |
| Dom.ParentOf | content-scripts/iframe-injector.js:359 | `parentElement`: the parent precedes the element in document order |
| Dom.AncestorPrecedes | content-scripts/iframe-injector.js:359-368 | every ancestor precedes its descendant in document order, so the climb terminates |
| Dom.Closest | content-scripts/fallback-strategies.js:104 | `closest(...)`: the element itself when it satisfies the test, else its nearest ancestor that does (the element and every ancestor below the result fail the test); none exactly when neither the element nor any ancestor satisfies it |
| Dom.FirstMatchFrom | content-scripts/iframe-injector.js:262 | the first index in a range that the selector matches and the filter accepts, with no match before it; none only when no index qualifies |
| Dom.Query | content-scripts/iframe-injector.js:198 | `document.querySelector`: a syntax error exactly for an invalid selector; otherwise the first match in document order, or none when nothing matches |
| Dom.QueryWithin | content-scripts/iframe-injector.js:362 | `parent.querySelector`: as above, restricted to descendants of the root |
| Dom.Page.Dispatch | content-scripts/iframe-injector.js:185 | `dispatchEvent` appends the event to the log and changes no element |
| Dom.Page.DispatchAll | content-scripts/iframe-injector.js:398-401 | a run of dispatches appends the events in order and changes no element |
| Dom.Page.Set | content-scripts/iframe-injector.js:396 | a property write changes that element only and logs nothing |
| Dom.Page.constructor | content-scripts/iframe-injector.js:185 | a page starts with its elements and an empty event log |
| SiteConfigs.DefaultKeysAreSiteIds | default-configs.js:4-112 | every preset key uses only lower-case letters, digits and `_`, so it is already a site id and the hostname rule maps it to itself |
| SiteConfigs.PresetTableSize | default-configs.js:4-112 | the preset table has exactly twelve distinct keys |
| SiteConfigs.DefaultsAreComplete | default-configs.js:4-112 | every preset names its site and input selector and carries a version |
| SiteConfigs.OnlyDeepSeekLacksSendSelector | default-configs.js:6-13 | DeepSeek is exactly the one preset without a send-button selector; every other preset has a non-empty one |
| FallbackStrategies.SortByPriority | content-scripts/fallback-strategies.js:185 | the in-place sort leaves the array in descending priority and a permutation of what it held |
| FallbackStrategies.InsertLast | content-scripts/fallback-strategies.js:185 | one insertion step: the sorted prefix grows by one and the array's contents are kept |
| FallbackStrategies.Swap | content-scripts/fallback-strategies.js:185 | exchanging two slots changes nothing else and keeps the contents |
| FallbackStrategies.HeadIsMax | content-scripts/fallback-strategies.js:185 | the first strategy of a sorted arrangement has the highest priority |
| FallbackStrategies.SortedPermutationUnique | content-scripts/fallback-strategies.js:185 | with distinct priorities there is only one sorted arrangement, so the sort's result does not depend on its stability |
| FallbackStrategies.SortedTableIsPriorityOrder | content-scripts/fallback-strategies.js:8-176 | sorting the declared table gives Enter (10), nearby element (9), Ctrl+Enter (8), form (7), SVG icon (6), delayed retry (5) |
| FallbackStrategies.PriorityOrderFacts | content-scripts/fallback-strategies.js:8-176 | that order is a permutation of the declared table, sorted, with distinct priorities |
| FallbackStrategies.KeyEvents | content-scripts/fallback-strategies.js:18-29 | one Enter key event (key code 13, with or without Ctrl) per event name, in order, on the input |
| FallbackStrategies.FirstNearby | content-scripts/fallback-strategies.js:72-89 | the first element in document order that is clickable, visible and to the right of or below the input within 100px; none only when no element qualifies |
| FallbackStrategies.SvgSearch | content-scripts/fallback-strategies.js:158-173 | a found SVG parent is a small (0 < width < 60), pointer-cursor element |
| FallbackStrategies.FindSvgButton | content-scripts/fallback-strategies.js:158-173 | the loop over the `svg` elements returns what the search specifies |
| FallbackStrategies.PageFindings | content-scripts/fallback-strategies.js:65-175 | what each strategy finds: a nearby element, the input's nearest enclosing form (the input itself or its nearest form ancestor, none exactly when neither is a form), an icon button, a retried button with non-zero height; the retry hangs exactly when its search throws |
| FallbackStrategies.OnlyRetryCanHang | content-scripts/fallback-strategies.js:131-147 | a strategy never settles exactly when it is the delayed retry and the button search throws inside its timer |
| FallbackStrategies.ChainRunsEveryStrategy | content-scripts/fallback-strategies.js:187-203 | a success does not stop the chain: when nothing hangs, every strategy runs once, in order, and is logged with its own outcome |
| FallbackStrategies.ChainAppend | content-scripts/fallback-strategies.js:187-203 | strategies that all settle pass the rest of the chain through unchanged |
| FallbackStrategies.PriorityChainRunsAll | content-scripts/fallback-strategies.js:187-203 | on a page whose retry does not throw, all six strategies run |
| FallbackStrategies.PriorityChainWithHang | content-scripts/fallback-strategies.js:131-147 | when the retry's search throws, all six strategies start and the last, the retry, never settles |
| FallbackStrategies.ChainStartsWithEnter | content-scripts/fallback-strategies.js:13-29 | in priority order the chain opens with a focus and keydown, keypress, keyup of Enter on the input |
| FallbackStrategies.NewStrategyTable | content-scripts/fallback-strategies.js:8-176 | the table is created with the strategies in their declared order |
| FallbackStrategies.Search | content-scripts/fallback-strategies.js:65-175 | the searches return what the page findings specify |
| FallbackStrategies.ExecuteFallbackStrategies | content-scripts/fallback-strategies.js:181-206 | the shared table ends sorted (in the priority order above when it held the declared table), the page's elements are untouched, and the events and log are those of running the sorted chain |
| FallbackStrategies.RunChain | content-scripts/fallback-strategies.js:187-203 | the loop appends exactly the chain's events and reports its runs |
| FallbackStrategies.ChainOne | content-scripts/fallback-strategies.js:188-202 | one strategy: its events are appended and its run recorded; the loop stops exactly when it never settles, and the rest of the chain is then what remains of the specified run |
| FallbackStrategies.PriorityOrderIsPermutation | content-scripts/fallback-strategies.js:185 | the listed order holds exactly the declared strategies |
| FallbackStrategies.PriorityOrderIsSorted | content-scripts/fallback-strategies.js:185 | the listed order is by descending priority with distinct priorities |
| FallbackStrategies.SameHead | content-scripts/fallback-strategies.js:185 | two sorted permutations of one table with distinct priorities start with the same strategy |
| Selectors.Hit | content-scripts/iframe-injector.js:260-268 | one guarded `querySelector`: a hit exactly when the first match exists and passes the test; an invalid selector counts as no hit |
| Selectors.FirstHit | content-scripts/iframe-injector.js:260-269 | the answer is the hit of the first selector that hits, every earlier selector missing or throwing; none exactly when no selector of the list hits |
| Selectors.SkipMiss | content-scripts/iframe-injector.js:260-269 | a selector that never hits can be removed from the list without changing the answer |
| Selectors.SkipRepeat | content-scripts/iframe-injector.js:339 | a selector listed a second time never changes the answer |
| Selectors.SkipMisses | content-scripts/iframe-injector.js:334-336 | a run of selectors that never hit can be removed without changing the answer |
| Selectors.UsableTextarea | content-scripts/iframe-injector.js:272-277 | the first textarea that is visible, enabled and writable, with no such textarea before it; none only when there is no such textarea |
| Selectors.Direct | content-scripts/injector.js:129-135 | an unguarded `querySelector`: it throws exactly for an invalid selector, otherwise finds the first match when it is visible |
| Selectors.UsableTextareaLoop | content-scripts/iframe-injector.js:272-277 | the loop over the textareas returns what the scan specifies |
| Selectors.FirstHitLoop | content-scripts/iframe-injector.js:260-269 | the `try`/`continue` loop returns what the cascade specifies |
| IframeInjector.LoadSiteConfig | content-scripts/iframe-injector.js:10-26 | the configuration is the stored entry under the page's site id, and none exactly when storage holds none or no entry for that id |
| IframeInjector.HasTextSelectorsThrow | content-scripts/iframe-injector.js:334-336 | on an engine that follows CSS, every `:has-text()` selector is a syntax error |
| IframeInjector.DeadButtonSelectors | content-scripts/iframe-injector.js:304-341 | on such an engine the three `:has-text` selectors and the repeated `button[type="submit"]` never change the send-button search |
| IframeInjector.RepeatedSubmitIsDead | content-scripts/iframe-injector.js:317 | the second `button[type="submit"]` never changes the search, on any engine |
| IframeInjector.ConfiguredHit | content-scripts/iframe-injector.js:195-208 | the configured selector counts only when the configuration names a non-empty one, and then it is its guarded, visible hit |
| IframeInjector.ResolveInput | content-scripts/iframe-injector.js:193-280 | the input box is visible; it is the configured hit when there is one, else the generic list's hit, else the textarea scan's |
| IframeInjector.Climb | content-scripts/iframe-injector.js:359-369 | the climb finds a visible submit button inside one of the first five ancestors, and throws only on an invalid selector |
| IframeInjector.ResolveButton | content-scripts/iframe-injector.js:283-374 | the send button is visible; it is the configured hit (visible is enough) when there is one, else the generic list's visible and enabled hit, else the climb's |
| IframeInjector.DisabledButtonOrigin | content-scripts/iframe-injector.js:285-353 | a disabled button can only come from the configured selector or from the climb, never from the generic list |
| IframeInjector.FindInputElement | content-scripts/iframe-injector.js:193-280 | returns the input box the resolution specifies |
| IframeInjector.FindSendButton | content-scripts/iframe-injector.js:283-374 | returns the button the resolution specifies |
| IframeInjector.ClimbLoop | content-scripts/iframe-injector.js:359-369 | the `while (parent && level < 5)` loop returns what the climb specifies |
| IframeInjector.ClimbOnce | content-scripts/iframe-injector.js:362-368 | one turn of the climb: a thrown query or a visible enabled-submit match settles the result the climb specifies; otherwise the search moves to the parent and the climb from there gives the same result |
| IframeInjector.Filled | content-scripts/iframe-injector.js:384-460 | a native control gets the text as its value; an editable element reads back the text; any other element is left as it was |
| IframeInjector.FillEvents | content-scripts/iframe-injector.js:381-402 | the element is focused and clicked first; a native control then gets input, change, input with the text, keyup; any other non-editable element gets nothing more |
| IframeInjector.FillReadsBack | content-scripts/iframe-injector.js:384-460 | after filling, a native control or editable element reads back exactly the text, whatever it held before |
| IframeInjector.FillIdempotent | content-scripts/iframe-injector.js:384-402 | filling twice with the same text is the same as filling once |
| IframeInjector.FillKeepsKind | content-scripts/iframe-injector.js:377-460 | filling changes nothing but the written field: tag, editability, attributes, classes, parent, visibility and disabled flag are kept |
| IframeInjector.FillInput | content-scripts/iframe-injector.js:377-460 | only the filled element changes, as specified, and the events appended are the fill's |
| IframeInjector.FillNative | content-scripts/iframe-injector.js:384-402 | a text field or text area gets the new value and only the four input, change, input-with-data and keyup events are appended |
| IframeInjector.FillEditable | content-scripts/iframe-injector.js:403-458 | an editable element gets the text as its content (markup when empty); focus and the input events follow, plus text-change on a Quill editor |
| IframeInjector.TriggerEnterKey | content-scripts/iframe-injector.js:148-190 | elements are unchanged and the log gains focus and Enter keydown, keypress, keyup |
| IframeInjector.ClickEvents | content-scripts/iframe-injector.js:83-117 | twelve events: focus, five mouse events, five pointer events, then the native click |
| IframeInjector.SendBranch | content-scripts/iframe-injector.js:67-143 | clicked exactly for a found enabled button; nothing for a disabled one; the fallback chain when none is found and it is loaded, otherwise Enter; nothing when the search throws |
| IframeInjector.DisabledSendsNothing | content-scripts/iframe-injector.js:129-131 | a disabled button or a throwing search produces no click and no Enter |
| IframeInjector.SendEventsActivate | content-scripts/iframe-injector.js:76-143 | the send step dispatches events exactly when it clicks or presses Enter, ending with the native click or the Enter keyup |
| IframeInjector.FillAndSendMessage | content-scripts/iframe-injector.js:44-145 | without an input box nothing changes; otherwise the box is filled, the button is searched on the filled page, and the log is the fill's events followed by the chosen branch's events (or the fallback chain's) |
| IframeInjector.SendAfterFill | content-scripts/iframe-injector.js:65-142 | the branch taken is the one the found button decides, the page elements stay as they are, and the log grows by that branch's events or by the fallback chain's |
| IframeInjector.OnMessage | content-scripts/iframe-injector.js:32-41 | only a message from the aggregator with action `fillAndSend` is handled; any other leaves the page and the strategy table untouched. A handled message runs fillAndSendMessage on its text: the input box is the resolved one, nothing changes when there is none, and otherwise the box is filled with the message's text, the button is searched on the filled page, and the log grows by the fill's events and then the chosen branch's events (or the fallback chain's) |
| Injector.DetectSite | content-scripts/injector.js:5-14 | ChatGPT exactly for an openai.com or chatgpt.com host; Gemini, then Claude, only when no earlier test matched; none exactly when no test matches |
| Injector.Registration | content-scripts/injector.js:17-22 | a registration is sent exactly on a recognised site, and it names that site |
| Injector.RegistrationOnlyForKnownSites | content-scripts/injector.js:5-22 | a registration is sent only from a host containing one of the four known domains |
| Injector.Acknowledge | content-scripts/injector.js:25-33 | only `fillAndSend` is answered; the answer is success with the processing message exactly when starting the storage read did not throw, otherwise failure carrying the error's message |
| Injector.FindSite | content-scripts/injector.js:41 | `find`: the first entry with the current site's id, no earlier entry having it; none when there is no current site or no entry has its id |
| Injector.ResolveInput | content-scripts/injector.js:128-177 | the selector itself is queried outside any `try`, so the search throws exactly for an invalid configured selector; a found box is visible; a visible direct hit wins |
| Injector.InputListHeadIsDead | content-scripts/injector.js:134-135 | after the direct query misses, the same selector at the head of the list never finds anything |
| Injector.ResolveButton | content-scripts/injector.js:93-120 | throws exactly for an invalid configured selector; a visible direct hit wins even when disabled; after a miss a found button is enabled, and none is found exactly when the fixed list finds none |
| Injector.FindInputElement | content-scripts/injector.js:128-177 | returns the box the resolution specifies |
| Injector.FindSendButton | content-scripts/injector.js:93-120 | returns the button the resolution specifies |
| Injector.BrLines | content-scripts/injector.js:194 | the result holds no line break and is at least as long as the text |
| Injector.BrLinesAppend | content-scripts/injector.js:194 | the replacement of line breaks distributes over concatenation |
| Injector.BrLinesKeepsSingleLine | content-scripts/injector.js:194 | a text with no line break is written unchanged |
| Injector.BrLinesOfBreak | content-scripts/injector.js:194 | each line break becomes exactly one `<br>` between the pieces around it |
| Injector.Filled | content-scripts/injector.js:185-211 | a TEXTAREA or INPUT gets the text as its value; an editable element gets the text with `<br>` for line breaks as its markup; anything else is unchanged |
| Injector.FillEvents | content-scripts/injector.js:185-211 | `input` and `change` exactly when something was written, and focus last in every case |
| Injector.FillWritesText | content-scripts/injector.js:185-211 | a native control reads back exactly the text, an editable element's markup is the text with `<br>` for line breaks (nothing escaped, as written), and filling twice is filling once |
| Injector.BrLinesLosesEntities | content-scripts/injector.js:193 | as written, the typed text `&lt;` is written unchanged and then shown as `<`, so the element does not show what was typed |
| Injector.BrMarkup | content-scripts/injector.js:193 | the corrected markup holds no raw line break and is never shorter than the text |
| Injector.ShownMarkupChar | content-scripts/injector.js:193 | one character of the corrected markup shows as that character |
| Injector.BrMarkupRoundTrip | content-scripts/injector.js:193 | the corrected markup, escaped and with `<br>` for line breaks, shows exactly the typed text for every text |
| Injector.FillInput | content-scripts/injector.js:185-211 | only the filled element changes, as specified, and the fill's events are appended |
| Injector.SendEvents | content-scripts/injector.js:63-82 | a native click for a found enabled button; one Enter keydown on the input box for a missing or disabled one; nothing when the search throws |
| Injector.SendOutcome | content-scripts/injector.js:63-82 | clicked exactly for a found enabled button; the search failed exactly when it threw |
| Injector.FillAndSendWithSites | content-scripts/injector.js:39-83 | no entry for this site, a throwing input search or no input box leave the page unchanged; otherwise the box is filled and the button searched on the filled page, with the fill's and the send step's events logged in that order |
| Injector.ClickOnlyWhenEnabled | content-scripts/injector.js:65-67 | a click only ever goes to a visible, enabled button |
| InteractionStrategies.EscapeAngles | content-scripts/interaction-strategies.js:57-60 | the markup written by the innerHTML strategy holds no `<` and no `>` |
| InteractionStrategies.EscapeAnglesLosesEntities | content-scripts/interaction-strategies.js:58 | as written, the innerHTML strategy's own write leaves the typed text `&lt;` unchanged, and that markup shows `<`; the generic strategy later rewrites the element in the same `fillInput` (see GenericWriteIsFinal) |
| InteractionStrategies.EscapeHtml | content-scripts/interaction-strategies.js:58 | the corrected escape (also `&`) holds no `<` and no `>` and is never shorter than the text |
| InteractionStrategies.DecodeEscapedChar | content-scripts/interaction-strategies.js:58 | one escaped character decodes back to itself whatever follows it |
| InteractionStrategies.EscapeHtmlRoundTrip | content-scripts/interaction-strategies.js:57-60 | with the corrected escape, the element shows exactly the typed text, for every text |
| InteractionStrategies.RunFill | content-scripts/interaction-strategies.js:257-271 | the strategy loop keeps the page's element count; the innerHTML strategy writes the text with only `<` and `>` escaped, as the code does |
| InteractionStrategies.ClosestSameShape | content-scripts/interaction-strategies.js:82-85 | the `.ql-container` ancestor is the same on two pages that differ only in what the strategies write |
| InteractionStrategies.AppliesSameShape | content-scripts/interaction-strategies.js:16-104 | each strategy's condition reads the same on two such pages, so an earlier strategy's write never switches a later one on or off |
| InteractionStrategies.AttemptKeepsShape | content-scripts/interaction-strategies.js:19-115 | every strategy's write, or its throw, keeps the element's shape |
| InteractionStrategies.Applicable | content-scripts/interaction-strategies.js:257-258 | the applicable strategies are at most the table |
| InteractionStrategies.OneResultPerApplicable | content-scripts/interaction-strategies.js:257-271 | one result per applicable strategy, in table order, named after it; a result records an error exactly when its strategy threw, and then reports failure |
| InteractionStrategies.ApplicableSameShape | content-scripts/interaction-strategies.js:257-258 | which strategies apply is the same on two pages of the same shape |
| InteractionStrategies.RunFillTouchesOnlyTarget | content-scripts/interaction-strategies.js:248-278 | the fill changes the target element only, and keeps its shape |
| InteractionStrategies.GenericRunsLast | content-scripts/interaction-strategies.js:102-116 | the generic strategy, whose condition always holds, is the last strategy run |
| InteractionStrategies.GenericWriteIsFinal | content-scripts/interaction-strategies.js:105-115 | unless its write throws, an element with a `value` property ends up holding the text, and an editable element without one ends up showing exactly the text, whatever the earlier strategies wrote |
| InteractionStrategies.ContentKeptAfterInnerHtml | content-scripts/interaction-strategies.js:63-115 | outside a Quill editor and with the generic write throwing, the strategies after the innerHTML one leave the element's content as it is |
| InteractionStrategies.EscapeAnglesLossSurvives | content-scripts/interaction-strategies.js:57-60 | when the generic write throws, the lossy markup survives `fillInput`: on an editable element outside a Quill editor the element is left with the text escaped only for `<` and `>` |
| InteractionStrategies.TriggerEvents | content-scripts/interaction-strategies.js:286-304 | a trigger whose condition fails fires nothing; otherwise one event per listed name, in order |
| InteractionStrategies.InputEventsSequence | content-scripts/interaction-strategies.js:121-145 | the input events are input, change, keyup, keydown, then an input event carrying the text, then `text-change` only on a Quill editor |
| InteractionStrategies.FireTrigger | content-scripts/interaction-strategies.js:291-303 | the elements are unchanged and exactly the trigger's events are appended |
| InteractionStrategies.FireTriggers | content-scripts/interaction-strategies.js:283-305 | the elements are unchanged and the events of every trigger, in table order, are appended |
| InteractionStrategies.RunFillStrategies | content-scripts/interaction-strategies.js:256-271 | the page, the results and the events are those of the strategy loop |
| InteractionStrategies.FillInput | content-scripts/interaction-strategies.js:248-278 | focus and click first, then the strategy loop, then the input events on the element as the strategies left it |
| InteractionStrategies.ClickResultsShape | content-scripts/interaction-strategies.js:310-328 | one result per click strategy, in table order; a result fails exactly for the touch strategy on a browser without touch events |
| InteractionStrategies.ClickEndsWithNativeClick | content-scripts/interaction-strategies.js:149-209 | the click sequence starts with focus and ends with the native click, 14 events with touch support and 12 without |
| InteractionStrategies.RunClickStrategies | content-scripts/interaction-strategies.js:313-324 | every click strategy runs; the elements are unchanged and the events and results are those of the click run |
| InteractionStrategies.ClickOne | content-scripts/interaction-strategies.js:315-323 | one click strategy: its events are appended and its result (completed or thrown) recorded, leaving the rest of the specified click run still to do |
| InteractionStrategies.ClickButton | content-scripts/interaction-strategies.js:310-328 | the button's events and results are those of the five click strategies in table order |
| InteractionStrategies.Matching | content-scripts/interaction-strategies.js:333-345 | a name is reported exactly when its feature's check holds and does not throw |
| InteractionStrategies.MatchingAppend | content-scripts/interaction-strategies.js:333-345 | a feature added at the end of the table adds its name at the end exactly when its check holds and does not throw, so names come in table order |
| InteractionStrategies.EvaluateElement | content-scripts/interaction-strategies.js:333-345 | the loop returns the matching feature names |
| InteractionStrategies.Classify | content-scripts/interaction-strategies.js:350-361 | `null` exactly when no feature matches; otherwise the non-empty list of matches |
| ElementPicker.FirstGivenAttr | selector-config/element-picker.js:152-158 | the first special attribute the element carries with a non-empty value; none when it carries none |
| ElementPicker.KeptClasses | selector-config/element-picker.js:162 | a class is kept exactly when it is non-empty and starts with neither `is-` nor `has-` |
| ElementPicker.TakeTwo | selector-config/element-picker.js:164 | the first two classes, or all when there are fewer |
| ElementPicker.Generate | selector-config/element-picker.js:146-179 | `#id` when the element has an id; else the first special attribute's selector; a child selector only when there is a parent |
| ElementPicker.GeneratedSelectorMatchesPick | selector-config/element-picker.js:146-179 | the selector generated for an element, as a selector, matches that element (its unescaped text is covered under Left out) |
| ElementPicker.Picker.constructor | selector-config/element-picker.js:3-5 | nothing is being picked, highlighted or shown, saving is disabled and nothing was sent |
| ElementPicker.Picker.StartPickingInput | selector-config/element-picker.js:49-54 | input picking is on and send picking off; nothing else changes |
| ElementPicker.Picker.StartPickingSend | selector-config/element-picker.js:57-62 | send picking is on and input picking off; nothing else changes |
| ElementPicker.Picker.HandleMouseMove | selector-config/element-picker.js:65-79 | while picking, an element outside the panel becomes the highlighted one; otherwise nothing changes |
| ElementPicker.Picker.CheckComplete | selector-config/element-picker.js:183-191 | saving becomes enabled once both picks are shown, and is never disabled again |
| ElementPicker.Picker.HandleClick | selector-config/element-picker.js:82-142 | outside picking or on the panel nothing changes; otherwise the generated selector is shown and sent for the current mode, picking and the highlight end, and saving is enabled when the other pick is also shown |
| ElementPicker.PickBoth | selector-config/element-picker.js:49-142 | picking the input and then the button outside the panel enables saving, after sending both selectors in that order |
| ElementPicker.TestFilled | selector-config/element-picker.js:262-270 | a text control gets the text as its value, an editable element as its text, anything else is unchanged; the tag, attributes, classes and parent are kept |
| ElementPicker.TestFillAndSend | selector-config/element-picker.js:253-287 | a missing input stops before filling; a missing button stops after filling; otherwise the button is clicked after the fill's events; an invalid selector fails at the point it is queried |
| Detector.FirstContaining | tools/detector.js:43 | `find`: a class containing the word with no earlier class containing it, and none only when no class contains it |
| Detector.FirstUniqueAttr | tools/detector.js:75-82 | a returned selector is `tag[attr="value"]` for a listed attribute the element carries, and is unique in the document |
| Detector.GenerateSelector | tools/detector.js:22-87 | the id wins, then the test id; an input skips the button rules and gets the generic rules |
| Detector.InputSelectorMatches | tools/detector.js:22-87 | the selector generated for an input, as a selector, matches it, and when it is unique it matches no other element (its unescaped text is covered under Left out) |
| Detector.RoleButtonSelectorSkipsDisabled | tools/detector.js:39-50 | the role-and-class selector matches only role="button" elements outside the excluded disabled state: without the element's disabled class, or else without `aria-disabled="true"` |
| Detector.InputScore | tools/detector.js:89-106 | the input score lies between 0 and 160 |
| Detector.ButtonScore | tools/detector.js:108-120 | the button score lies between 0 and 115 and is positive exactly when the element is a BUTTON, is a submit, has a send-like label or send-like text |
| Detector.Detect | tools/detector.js:3-12 | the reported site id is the hostname with every character outside `[a-zA-Z0-9]` replaced by `_` |
| Detector.DetectionReport | tools/detector.js:122-157 | the scores lie within their bounds; a selector is reported exactly when some shown element qualifies; a reported button scored above 0 |
| Detector.InputReport | tools/detector.js:122-137 | the reported input confidence lies in 0..160, and no input selector is reported exactly when no shown text box qualifies |
| Detector.SendReport | tools/detector.js:139-157 | the reported button confidence lies in 0..115 and is positive when a selector is reported; no selector exactly when no shown button qualifies |
| Detector.RunDetector | tools/detector.js:122-159 | the script's two candidate loops and picks report what the detection specifies |
| Css.CountMatches | tools/detector.js:69 | `querySelectorAll(sel).length` never exceeds the number of elements |
| Css.CountZero | tools/detector.js:69 | a count of 0 means no element matches |
| Css.CountOneIsOnly | tools/detector.js:69 | with a count of 1, a matching element is the only one |
| Css.CountPositive | tools/detector.js:69 | a matching element makes the count at least 1 |
| Css.UniqueSelectsOnly | tools/detector.js:69-71 | a selector accepted for being unique matches no element but the one it was made for |
| Css.AttrSelectorMatches | tools/detector.js:79 | `tag[attr="value"]` matches the element it was made from |
| Css.ClassParts | tools/detector.js:68 | one class selector per class, in order |
| Css.ClassPartsMatch | tools/detector.js:68 | an element matches the class selectors of the classes it carries |
| Ranking.WithoutPrefixes | tools/detector.js:66 | a class is kept exactly when it starts with none of the transient prefixes |
| Ranking.Collect | tools/detector.js:123-131 | the candidates are made from exactly the accepted elements, at most one per element |
| Ranking.CollectNone | tools/detector.js:123-131 | no accepted element means no candidate |
| Ranking.CollectCandidates | tools/detector.js:124-131 | the `forEach` loop builds the collected candidates in document order |
| Ranking.Best | tools/detector.js:133-137 | none exactly for an empty list; otherwise the earliest candidate of highest score, the one a stable descending sort puts first |
| Ranking.PickBest | tools/detector.js:133-137 | the scan returns the candidate the sort puts first |
| Ranking.Choose | tools/detector.js:133-137 | no selector and confidence 0 exactly for no candidates; otherwise the selector and score of a first highest-scoring candidate |
| Ranking.ShortName | tools/config-generator.js:205 | the name is a prefix of the title and contains neither of the separators ` - ` and space-bar-space |
| Ranking.LevelOf | tools/config-generator.js:423-427 | high exactly from 80, medium exactly from 50 below 80, low below 50 |
| Ranking.LevelMonotone | tools/batch-config-generator.js:247-251 | a higher score never gets a lower level |
| ConfigGenerator.Prefix10 | tools/config-generator.js:298 | the first ten characters of the value, or the whole value when shorter |
| ConfigGenerator.AttrRule | tools/config-generator.js:288-304 | a returned selector is unique in the document and is the exact or (for a value longer than 5) the partial selector of a listed attribute the element carries |
| ConfigGenerator.GenerateSelector | tools/config-generator.js:266-313 | the id wins, then the test id |
| ConfigGenerator.PartialSelectorMatches | tools/config-generator.js:297-298 | a value longer than 5 characters is matched by its `*=` selector on its first ten characters |
| ConfigGenerator.SelectorMatchesElement | tools/config-generator.js:266-313 | the generated selector, as a selector, matches its element, and when it is unique it matches no other element (its unescaped text is covered under Left out) |
| ConfigGenerator.InputScore | tools/config-generator.js:316-361 | the input score lies between 0 and 205 |
| ConfigGenerator.FirstSvgFrom | tools/config-generator.js:399 | `querySelector('svg')`: the first `svg` inside the button at or after the starting point, no earlier one qualifying; none exactly when no `svg` lies inside it |
| ConfigGenerator.ButtonScore | tools/config-generator.js:364-420 | the clamped score lies between 0 and 220 and is positive exactly when the raw score is |
| ConfigGenerator.ClampIsReached | tools/config-generator.js:413-419 | one example: a small unlabelled element high on the page has a raw score of -20, below 0, so the clamp matters |
| ConfigGenerator.TextboxNotRepeated | tools/config-generator.js:67-87 | a role="textbox" element already collected is not collected again, and every qualifying one ends up collected |
| ConfigGenerator.ButtonCandidateRules | tools/config-generator.js:109-178 | every visible enabled `input[type=submit]` is collected whatever its score; every other candidate scores above 0 |
| ConfigGenerator.CollectInputs | tools/config-generator.js:24-87 | the three input strategies' loops build the specified candidate list |
| ConfigGenerator.CollectButtons | tools/config-generator.js:109-178 | the three button strategies' loops build the specified candidate list |
| ConfigGenerator.RunGenerator | tools/config-generator.js:7-195 | the script's result is the best candidate of each list |
| ConfigGenerator.ConfigSelectors | tools/config-generator.js:206-207 | the configuration code carries the found selectors, or `textarea` and `button[type="submit"]` for what was not found |
| ConfigGenerator.WarningMatchesLevels | tools/config-generator.js:220-224 | the low-confidence warning is printed exactly when either confidence level is low |
| ConfigGenerator.NothingFoundWarns | tools/config-generator.js:98-104 | a page with no input candidate always gets the warning and the default `textarea` |
| BatchConfigGenerator.DetectedCount | tools/batch-config-generator.js:82-83 | the number of sites whose processing succeeded, at most the site count |
| BatchConfigGenerator.ThrewCount | tools/batch-config-generator.js:90-92 | the number of sites whose processing threw, at most the site count |
| BatchConfigGenerator.Successes | tools/batch-config-generator.js:82-88 | one result per succeeding site and nothing else: as many results as successes, and site `k`'s result sits after the results of the successes before it, in list order |
| BatchConfigGenerator.Failures | tools/batch-config-generator.js:90-93 | one error per throwing site and nothing else: as many errors as throws, and site `k`'s error, with its message, sits after the errors of the throws before it |
| BatchConfigGenerator.SuccessesFromSites | tools/batch-config-generator.js:82-88 | nothing else enters the results: every result is the name and detection of a site whose processing succeeded |
| BatchConfigGenerator.FailuresFromSites | tools/batch-config-generator.js:90-93 | nothing else enters the errors: every error is the name and message of a site whose processing threw |
| BatchConfigGenerator.CountsSplit | tools/batch-config-generator.js:81-93 | every site either succeeds or throws, so the two counts add up to the site count |
| BatchConfigGenerator.EverySiteReported | tools/batch-config-generator.js:78-97 | every site lands in one of the two lists: a succeeding site's result is among the results, a throwing site's error among the errors, and the lists add up to the site count |
| BatchConfigGenerator.CollectOutcomes | tools/batch-config-generator.js:78-97 | the loop's results and errors are the specified lists |
| BatchConfigGenerator.GenerateAllConfigs | tools/batch-config-generator.js:72-106 | over the fixed site list, the results and errors are the specified lists |
| BatchConfigGenerator.CountWhere | tools/batch-config-generator.js:174-180 | a filtered count never exceeds the list |
| BatchConfigGenerator.HighMediumDisjoint | tools/batch-config-generator.js:174-181 | no result is counted both high and medium |
| BatchConfigGenerator.LowCountsTheRest | tools/batch-config-generator.js:181 | the low count is never negative: it counts exactly the results in neither other bucket |
| BatchConfigGenerator.SplitCount | tools/batch-config-generator.js:174-181 | a condition and its negation split the list's count |
| BatchConfigGenerator.MediumMayHideLow | tools/batch-config-generator.js:177-180 | one example: a result with a low input score and a medium button score is counted medium |
| BatchConfigGenerator.ConfidenceStatus | tools/batch-config-generator.js:240-245 | each score is classified on its own: high from 80, low below 50 |
| BatchConfigGenerator.HighBucketIsBothHigh | tools/batch-config-generator.js:174-176 | the high count holds exactly the results whose two statuses are both high |
| BatchConfigGenerator.BothCount | tools/batch-config-generator.js:214-215 | the number of results with both selectors, at most the number of results |
| BatchConfigGenerator.ConfigEntries | tools/batch-config-generator.js:208-226 | as many entries are printed as there are results with both an input and a send selector |
| BatchConfigGenerator.ConfigEntriesPlaced | tools/batch-config-generator.js:214-226 | every result with both selectors has its entry printed, after the entries of the qualifying results before it, in result order |
| BatchConfigGenerator.ConfigEntriesFromResults | tools/batch-config-generator.js:214-226 | nothing else is printed: every entry is the entry of a result with both selectors |
| BatchConfigGenerator.EntriesWellFormed | tools/batch-config-generator.js:214-225 | every emitted entry has non-empty selectors and a name free of the title separators |
| SelectorConfig.HostTargetsHaveUnderscore | selector-config/selector-config.js:36-43 | every target of the legacy key table already has the site-id form (it contains `_`) |
| SelectorConfig.NormalizeKey | selector-config/selector-config.js:30-46 | a key with `_` is kept; any other is replaced by the legacy table's entry for its lower-cased form, or kept when it has none |
| SelectorConfig.NormalizeKeyIdempotent | selector-config/selector-config.js:30-46 | normalising a normalised key changes nothing |
| SelectorConfig.Normalized | selector-config/selector-config.js:27-47 | the normalised map's keys are exactly the normalised stored keys |
| SelectorConfig.NormalizedLastWins | selector-config/selector-config.js:29-47 | a normalised key holds the configuration of the last stored entry that normalises to it |
| SelectorConfig.NormalizeConfigs | selector-config/selector-config.js:27-47 | the loop builds the normalised map |
| SelectorConfig.NormalizeEntry | selector-config/selector-config.js:30-46 | one entry: a key with `_` is kept, a known legacy key is mapped, any other kept, and the config stored under that key gives the normalised map of one more entry |
| SelectorConfig.NormalizedPrefixStep | selector-config/selector-config.js:29-46 | a further entry overwrites its normalised key and leaves the other keys as they were |
| SelectorConfig.SecondLoadKeepsKeys | selector-config/selector-config.js:49-56 | loading configurations saved by a previous load never rewrites storage again |
| SelectorConfig.LegacyKeyIsRewritten | selector-config/selector-config.js:44-52 | one example: a configuration stored under the legacy key `ChatGPT` makes the load rewrite storage |
| SelectorConfig.FirstPerHost | selector-config/selector-config.js:91-99 | the listed tabs are exactly those that are the first of their host, at most one per tab |
| SelectorConfig.FirstPerHostCovers | selector-config/selector-config.js:91-99 | every host of an eligible tab is listed |
| SelectorConfig.FirstPerHostDistinct | selector-config/selector-config.js:91-99 | no host is listed twice |
| SelectorConfig.UniqueTabs | selector-config/selector-config.js:83-99 | the filter and the seen-hosts loop list the first eligible tab of each host |
| SelectorConfig.UniqueStep | selector-config/selector-config.js:92-98 | one turn of the seen-hosts loop: the tab is added exactly when its host is new, and its host joins the seen set |
| SelectorConfig.ListedSites | selector-config/selector-config.js:71-100 | a non-empty split-screen list is shown site by site; otherwise the unique tabs are shown |
| SelectorConfig.StatusOf | selector-config/selector-config.js:126-144 | customised exactly when a user configuration exists, preset exactly when only a default exists, to be configured otherwise |
| SelectorConfig.CardOf | selector-config/selector-config.js:118-159 | the card's id is the hostname in site-id form, its name the title or else the hostname, its icon the one `getIconForSite` picks, its status the user-over-preset classification of that id, and it is marked configured exactly when the user or a preset configures the id |
| SelectorConfig.FirstRelated | selector-config/selector-config.js:213-217 | the first table entry whose domain contains the hostname or is contained in it |
| SelectorConfig.ExactIcon | selector-config/selector-config.js:208-210 | an entry whose domain is exactly the hostname, and none when there is no such entry |
| SelectorConfig.IconFrom | selector-config/selector-config.js:189-221 | an exact domain wins; otherwise the first related domain's icon; the globe when no domain is related |
| SelectorConfig.Dotted | selector-config/selector-config.js:473 | every `_` of the id becomes `.` and nothing else changes |
| SelectorConfig.DisplayName | selector-config/selector-config.js:464-473 | a known id gets its product name; any other id is shown with dots |
| SelectorConfig.DisplayNameRoundTrip | selector-config/selector-config.js:124-473 | for a hostname of letters, digits and dots that is not a known product, the displayed name of its site id is the hostname again |
| SelectorConfig.DottedSiteId | selector-config/selector-config.js:124-473 | turning a hostname of letters, digits and dots into a site id and back restores it |
| SelectorConfig.Wizard.constructor | selector-config/selector-config.js:1-8 | step 1, nothing selected, an empty configuration, no configurations and the next button disabled |
| SelectorConfig.Wizard.LoadExistingConfigs | selector-config/selector-config.js:19-57 | the configurations become the normalised map, written back exactly when the key sets differ; nothing else changes |
| SelectorConfig.Wizard.GoToStep | selector-config/selector-config.js:278-295 | each indicator before the step is completed, the step's own is active; only the step's content is shown |
| SelectorConfig.Wizard.SelectSite | selector-config/selector-config.js:161-171 | the clicked card's site becomes the selected one; nothing else changes |
| SelectorConfig.Wizard.UpdatePreview | selector-config/selector-config.js:361-379 | the next button is enabled exactly when both selectors are given, and then the configuration is saved under the selected site |
| SelectorConfig.Wizard.HandleSelectorSelected | selector-config/selector-config.js:348-358 | an `input` or `send` pick sets that selector only, any other kind none; then the preview is updated |
| SelectorConfig.Wizard.UpdateCurrentSiteInfo | selector-config/selector-config.js:298-311 | a saved configuration for the site is copied in and previewed; otherwise the configuration is emptied |
| SelectorConfig.Wizard.NextToStep2 | selector-config/selector-config.js:231-238 | without a selected site nothing changes; otherwise step 2 is the only content shown, the saved configurations are kept, and the site's saved configuration is loaded and previewed (next enabled iff both selectors are given, storage rewritten when enabled), or, with none saved, the configuration is emptied and next and storage are left alone |
| SelectorConfig.Wizard.ConfigureAnother | selector-config/selector-config.js:257-262 | the selection and the configuration are cleared and step 1 is the only content shown; saved configurations, storage and the next button are kept |
| SelectorConfig.Wizard.ResetToPreset | selector-config/selector-config.js:422-448 | refused exactly when the site has no default (the reset button's condition); otherwise, when confirmed, its user configuration is deleted and storage rewritten; the step, the shown content, the selection, the configuration and the next button are kept |
| SelectorConfig.Wizard.DeleteConfig | selector-config/selector-config.js:517-524 | when confirmed the configuration is deleted and storage rewritten; otherwise nothing changes; in both cases the step, the shown content, the selection, the configuration and the next button are kept |
| SelectorConfig.ResetFallsBackToPreset | selector-config/selector-config.js:126-144 | after a reset a site with a default shows as preset, whatever it showed before |
| SplitView.CeilSqrt | split-view/split-view.js:153 | `Math.ceil(Math.sqrt(n))` on whole numbers: the least root whose square reaches `n` |
| SplitView.LayoutFor | split-view/split-view.js:136-177 | up to 2 sites two columns, 3 sites three columns, 4 sites the 2 by 2 grid, more the automatic grid |
| SplitView.AutoGridFits | split-view/split-view.js:150-156 | the automatic grid has 3 columns up to 9 sites and 4 beyond, and just enough rows: every site fits and no row is left empty |
| SplitView.LayoutName | split-view/split-view.js:475-485 | a known layout gets its display name; any other is shown as it is |
| SplitView.ChosenLayoutsAreNamed | split-view/split-view.js:143-151 | every layout chosen for a site count has its own display name |
| SplitView.EnterRules | split-view/split-view.js:334-344 | nothing is sent while an input method is composing or with Ctrl or Shift held; otherwise Enter sends |
| SplitView.Payload | split-view/split-view.js:407-411 | the posted message is one the frames' injector accepts, and carries the text |
| SplitView.Posts | split-view/split-view.js:395-418 | one message per reachable frame, and only those: as many messages as reachable frames, in frame order, each the fill request carrying the text |
| SplitView.ReportedCount | split-view/split-view.js:424-434 | the reported count is the posted count or, on a successful response, the larger of it and the response's successes |
| SplitView.CountTrue | split-view/split-view.js:426 | the successful results never outnumber the results |
| SplitView.PostToFrames | split-view/split-view.js:395-418 | the loop posts to every reachable frame, in order |
| SplitView.WithoutId | split-view/split-view.js:574 | exactly the sites with another id are kept, and removing a present id shortens the list |
| SplitView.WithoutAbsentId | split-view/split-view.js:574 | filtering an absent id changes nothing |
| SplitView.FindId | split-view/split-view.js:710 | the first index with the id, and none when no site has it |
| SplitView.FindIdIsFirst | split-view/split-view.js:710 | the first site with the id is the one found |
| SplitView.Upsert | split-view/split-view.js:710-716 | a present id has its site replaced in place, and no other; an absent one is appended |
| SplitView.UpsertIdempotent | split-view/split-view.js:696-716 | adding the same tab twice gives the list of adding it once |
| SplitView.AddedTabIsAlreadyAdded | split-view/split-view.js:653-716 | after a tab is added, the list marks it as already added |
| SplitView.Loaded | split-view/split-view.js:29-64 | a non-empty hand-over list wins, is written to sync storage and removed from local storage; otherwise the sync list (or none) is used; a stored layout replaces the current one; the local copy is the loaded list |
| SplitView.Page.constructor | split-view/split-view.js:5-8 | no sites, the 2 by 2 grid, no cached tabs, no fetch in progress |
| SplitView.Page.LoadConfig | split-view/split-view.js:29-64 | the sites, layout and storage become those of the load; nothing else changes, composition flag included |
| SplitView.Page.Initialize | split-view/split-view.js:72-90 | one panel per site; with sites the layout is the one for their count, without them it is kept |
| SplitView.Page.ChangeLayout | split-view/split-view.js:444-460 | the automatic grid is recomputed for the site count, any other layout taken as chosen, and the layout name is saved |
| SplitView.Page.CompositionStart | split-view/split-view.js:332 | composition is on; nothing else changes |
| SplitView.Page.CompositionEnd | split-view/split-view.js:333 | composition is off; nothing else changes |
| SplitView.Page.SendToAllAI | split-view/split-view.js:380-441 | a blank input sends nothing; otherwise the trimmed text is posted to every reachable frame, sent once to the background, and the input cleared |
| SplitView.Page.KeyDownEvent | split-view/split-view.js:334-344 | a key that does not send changes nothing; Enter outside composition with a blank input changes nothing; with text it posts and requests as the send button does and clears the input; the site list, layout, panels, storage, tab cache and flags are kept |
| SplitView.Page.RemoveSite | split-view/split-view.js:565-583 | an absent id changes nothing; otherwise the site is filtered out, both storages rewritten, and the panels and layout follow the new list |
| SplitView.Page.AddTabToSplit | split-view/split-view.js:696-729 | the tab's site is upserted into the stored list, both storages rewritten, the panels and layout follow, and the tab shows as already added |
| SplitView.Page.BeginRefresh | split-view/split-view.js:599-604 | a refresh starts exactly when none is in progress, and marks one in progress |
| SplitView.Page.FinishRefresh | split-view/split-view.js:605-621 | the cache becomes the eligible tabs on success and is kept on failure; no fetch is then in progress |
| TabSelector.IndexOfId | tab-selector/tab-selector.js:91 | an index holding the tab id, and none exactly when no selected tab has it |
| TabSelector.RemoveAt | tab-selector/tab-selector.js:95 | `splice(index, 1)`: one tab fewer, the tabs before the index kept and those after shifted down by one |
| TabSelector.RemoveAtIds | tab-selector/tab-selector.js:91-96 | removing a selected tab keeps the ids distinct and removes exactly that tab's id |
| TabSelector.FirstTabs | tab-selector/tab-selector.js:126 | `allTabs.slice(0, 4)`: a prefix of the tabs, of length the smaller of 4 and their number |
| TabSelector.SitesOf | tab-selector/tab-selector.js:161-170 | one site per selected tab, in order, each made from its tab |
| TabSelector.Selector.constructor | tab-selector/tab-selector.js:2-3 | no tabs, nothing selected, no card marked, the counter at 0 and "start" disabled |
| TabSelector.Selector.UpdateCounter | tab-selector/tab-selector.js:111-117 | both counters show the number selected and the start button is disabled exactly when none is; nothing else changes |
| TabSelector.Selector.LoadTabs | tab-selector/tab-selector.js:12-57 | the listed tabs are the eligible ones; the selection is kept, the cards show it, and the counter still shows it; with no eligible tab the counter is left as it was (renderTabs, which updates it, is skipped) |
| TabSelector.Selector.ToggleTab | tab-selector/tab-selector.js:90-108 | a selected tab is removed from the selection; an unselected one is appended while fewer than 4 are selected, and refused otherwise; the clicked card's mark is removed or added with it, so cards that showed the selection keep showing it, and a toggle works after the as-written select-all too; the counter and start button follow the new selection, and a refused toggle leaves them as they were |
| TabSelector.Selector.SelectAllAsWritten | tab-selector/tab-selector.js:125-137 | as written: the selection becomes the first four tabs, but cards are only ever marked, never unmarked; the counter shows the new selection |
| TabSelector.Selector.SelectAll | tab-selector/tab-selector.js:125-137 | corrected: the selection becomes the first four tabs, the cards show exactly that selection, and the counter shows it |
| TabSelector.Selector.ClearAll | tab-selector/tab-selector.js:140-146 | the selection is emptied, no card is marked, the counter shows 0 and "start" is disabled |
| TabSelector.Selector.StartSplitView | tab-selector/tab-selector.js:153-175 | starts exactly when something is selected, handing the selected tabs' sites over in local storage; otherwise storage is untouched; the selection, cards and counter never change |
| TabSelector.SelectAllLeavesStaleMark | tab-selector/tab-selector.js:125-137 | for any tabs and marks: a listed tab whose card is marked but which is not among the first four is still marked after the as-written select-all, so the cards no longer show the selection |
| TabSelector.StaleMarkWithFiveTabs | tab-selector/tab-selector.js:125-137 | the case is reached: five tabs with the fifth selected leave the fifth card marked although it is no longer selected |
| TabSelector.HandOffIsLoaded | tab-selector/tab-selector.js:161-175 | the split screen loads exactly the handed-over sites, one per selected tab, in order, all enabled and with the tabs' addresses |
| WindowManager.MaxTabs | window-manager/window-manager.js:164-172 | 2 for the two-window layouts, 3 for three columns, 4 for the grid, 2 for any other name |
| WindowManager.WindowPositions | window-manager/window-manager.js:272-331 | the first `count` of the layout's panels; none for an unknown layout; one per tab whenever the count fits the layout |
| WindowManager.PanelsTile | window-manager/window-manager.js:272-328 | each known layout has as many panels as it admits, all of one size, pairwise apart, inside the work area, from its top-left corner to its bottom-right corner |
| WindowManager.NeighboursOneGapApart | window-manager/window-manager.js:278-327 | neighbouring panels are exactly one gap of 4 apart |
| WindowManager.PositionForEveryTab | window-manager/window-manager.js:225-235 | whenever the selection fits the layout, every selected tab gets a position |
| WindowManager.ListedOf | window-manager/window-manager.js:48-59 | a window's listed tabs are exactly those whose address is not an extension page |
| WindowManager.Listed | window-manager/window-manager.js:39-67 | the listed tabs are exactly the non-extension tabs of every window |
| WindowManager.ListWindow | window-manager/window-manager.js:48-59 | the tabs listed so far followed by exactly the window's non-extension tabs, in order |
| WindowManager.WithoutTabId | window-manager/window-manager.js:100 | exactly the other ids are kept, and an absent id changes nothing |
| WindowManager.Captured | window-manager/window-manager.js:209-222 | a window already recorded keeps its first state; every new entry is the window of a selected tab |
| WindowManager.CapturesEveryWindow | window-manager/window-manager.js:209-222 | when every selected tab is known, every one of their windows is recorded |
| WindowManager.Pushed | window-manager/window-manager.js:503-520 | the new entry goes first, followed by a prefix of the old history, which grows until it reaches 20 entries and never beyond |
| WindowManager.Reversed | window-manager/window-manager.js:512 | the entries in reverse order |
| WindowManager.HistoryKeepsNewest | window-manager/window-manager.js:503-520 | after several pushes the history is the newest entries first, cut to 20 |
| WindowManager.TabRefs | window-manager/window-manager.js:395-405 | exactly the address and title of each selected tab that could be read |
| WindowManager.RefUrls | window-manager/window-manager.js:475-478 | the URL of each saved tab reference, in order |
| WindowManager.WithoutLayout | window-manager/window-manager.js:457 | exactly the layouts with another id are kept |
| WindowManager.Placements | window-manager/window-manager.js:233-251 | one new window per tab, in order, only the first focused, each at its position |
| WindowManager.Sends | window-manager/window-manager.js:253-257 | one message with the text per tab, in order |
| WindowManager.Manager.constructor | window-manager/window-manager.js:2-6 | no tabs, nothing selected, two columns, the stored layouts or none, no recorded windows and no tab requests |
| WindowManager.Manager.LoadTabs | window-manager/window-manager.js:39-67 | the listed tabs are those of every window; nothing else changes |
| WindowManager.Manager.CheckTab | window-manager/window-manager.js:90-98 | the tab is appended exactly while fewer tabs than the layout admits are selected |
| WindowManager.Manager.UncheckTab | window-manager/window-manager.js:99-101 | the tab's id leaves the selection and nothing else does |
| WindowManager.Manager.ChangeLayout | window-manager/window-manager.js:21-25 | the layout changes and a selection too large for it is cut to its first tabs |
| WindowManager.Manager.CaptureStates | window-manager/window-manager.js:209-222 | the recorded states are those of the capture, and the capture completes exactly when every selected tab is known |
| WindowManager.Manager.MoveTabs | window-manager/window-manager.js:233-258 | every tab with a position is moved and placed, and gets the text when there is one; the first tab without a position stops the loop after its window is created |
| WindowManager.Manager.ApplySplitScreen | window-manager/window-manager.js:175-269 | nothing selected or too many selected stops before any change; otherwise the windows are recorded, and the split applies exactly when every tab is known and positioned, moving every tab, sending the trimmed text, and pushing a history entry; when every tab is known but positions run short (an unknown layout), the positioned tabs are moved, one more window is created without a position, and the split fails there |
| WindowManager.Manager.RestoreWindows | window-manager/window-manager.js:346-374 | every recorded window is restored to its state and the record is cleared |
| WindowManager.Manager.SaveCurrentLayout | window-manager/window-manager.js:377-412 | saved exactly when something is selected and a name was given; the new layout holds the readable tabs' addresses and titles |
| WindowManager.Manager.DeleteLayout | window-manager/window-manager.js:455-462 | when confirmed, exactly the layout with that id is removed; otherwise nothing changes |
| WindowManager.Manager.RequestTabs | window-manager/window-manager.js:474-481 | the create loop: `tabs.create` is asked for each saved URL in order, stopping after the first rejected request; it reports whether every tab opened |
| WindowManager.Manager.ApplyOpened | window-manager/window-manager.js:486-495 | the opened tabs become the selection under the saved layout; a layout without a radio button stops there (the tick throws) with nothing else changed; otherwise the tab list is reloaded and the split runs with `applySplitScreen`'s outcomes, applying exactly when the tabs fit and are all known, with the windows, messages and history entry that implies |
| WindowManager.Manager.ApplyLayout | window-manager/window-manager.js:469-500 | a tab is requested for each saved URL in order; a rejected request ends in the catch as Failed with only the requests up to it recorded and nothing else changed; with every tab open, the rest is as ApplyOpened states: selection, layout, reloaded tab list, and the split's outcome with its windows, messages and history entry, applied exactly when every tab opened, the layout is known, the tabs fit and are all known |
| WindowManager.SavedLayoutReapplies | window-manager/window-manager.js:469-500 | reopening a saved layout on a known layout gives every tab a position |
| AiTabs.Lookup | background.js:91 | `aiTabs[k]`: absent exactly when no entry has the key; otherwise the tab of that key's entry |
| AiTabs.IndexOfKey | background.js:91 | the position of the first entry with the key, and none exactly when the key is absent |
| AiTabs.Put | background.js:39 | `aiTabs[k] = v`: keys stay distinct, the key now maps to the tab, an existing key keeps its place and a new one is added, every entry of another key kept |
| AiTabs.PutOthers | background.js:58 | assigning one key leaves every other key's lookup unchanged |
| AiTabs.PutKeepsOthers | background.js:58 | a list that agrees with the old one on every other key's entries gives the same lookups for those keys |
| AiTabs.Delete | background.js:96 | `delete aiTabs[k]`: exactly the key's entry is spliced out, keys stay distinct, the key is gone, and an absent key changes nothing |
| AiTabs.DeleteOthers | background.js:96 | deleting one key leaves every other key's lookup unchanged |
| AiTabs.SplicedEntries | background.js:96 | removing one index keeps keys distinct, adds no entry and keeps every entry of another key |
| AiTabs.SameOtherEntries | background.js:96 | two key-distinct lists holding the same entries for all keys but one agree on every other key's lookup |
| AiTabs.FirstWithTab | background.js:128-129 | the first entry, in insertion order, holding the closed tab, and none exactly when no entry holds it |
| AiTabs.RemoveTab | background.js:128-134 | the first entry holding the closed tab is removed and no other; nothing changes when no entry holds it |
| AiTabs.RemoveTabKeepsOthers | background.js:128-134 | closing a tab keeps keys distinct and every site's tab that was a different tab |
| AiTabs.Values | main/main.js:241 | `Object.values(aiTabs)`: the tab ids of the entries, in order |
| AiTabs.PutAll | main/main.js:209-211 | successive assignments keep the keys distinct |
| AiTabs.PutAllLastWins | main/main.js:209-211 | after successive assignments a site maps to the tab of its last assignment |
| AiTabs.PutAllLast | main/main.js:209-211 | the last assignment wins for its own key |
| AiTabs.PutAllStep | main/main.js:209-211 | a key other than the last assignment's keeps the tab it had before that assignment |
| AiTabs.PutKeeps | background.js:58 | an assignment to another key keeps a key's tab |
| AiTabs.DeleteEntry | background.js:96 | deleting the key of an entry in the middle of the list leaves the entries before and after it, in order |
| Background.Opened | background.js:51-58 | the tabs opened for the first enabled sites: at most one per site |
| Background.OpenedTabsOrigin | background.js:51-58 | every opened tab was created for one of the enabled sites and carries its id and name; with no failed creation every site has a tab |
| Background.EntriesOf | background.js:58 | the assignments the opened tabs make, one per tab, in order |
| Background.UrlsOf | background.js:51-56 | the URLs the loop asks `tabs.create` for: one per site, the site's URL, in order |
| Background.OpenStep | background.js:51-73 | one loop step: a failed creation adds nothing; a created tab is appended and assigned; a custom site's tab is injected |
| Background.CustomTabs | background.js:61-73 | the custom sites' created tabs, at most one per site |
| Background.OpenedOnlyEnabled | background.js:48-58 | only enabled sites get a tab, keyed and named as the site is |
| Background.OpenedTabRecorded | background.js:51-58 | after the open loop a site maps to the last tab opened for it |
| Background.ResultOf | background.js:101-118 | a result carries the entry's site and tab; success exactly when the tab answered with success; an error exactly when sending threw |
| Background.Kept | background.js:91-98 | the entries kept from the first `n`, at most `n` of them |
| Background.KeptMembers | background.js:91-98 | the kept entries are exactly the first `n` entries whose tab still exists |
| Background.Results | background.js:88-123 | one result per kept entry |
| Background.ResultsMatchKept | background.js:106-119 | the `k`-th result carries the `k`-th kept entry's site and tab, and is a success exactly when that tab answered with success |
| Background.SendStep | background.js:94-98 | a dead tab's entry is deleted from the map; a live tab's entry stays |
| Background.Service.constructor | background.js:5 | the worker starts with an empty map and nothing created, injected, activated or sent |
| Background.Service.Register | background.js:37-43 | `registerAITab`: the site now maps to the sender's tab and every other site keeps its tab |
| Background.Service.OnRemoved | background.js:126-135 | `tabs.onRemoved`: the map loses the first entry holding the closed tab |
| Background.Service.OnInstalled | background.js:138-178 | on first install the default sites are stored only when no site list exists; otherwise storage is unchanged |
| Background.OpenOne | background.js:52-76 | one site of the loop: when its tab was created it is recorded, assigned in the map and, for a custom site, injected; the opened tabs, map and injections are then those of one more site |
| Background.Service.OpenAll | background.js:51-77 | the open loop: `tabs.create` is called with every enabled site's URL in order; the tabs are those opened, the map holds their successive assignments, and the custom tabs are injected |
| Background.Service.OpenTabs | background.js:47-85 | `openAITabs`: a tab is requested for the URL of every enabled site, in order; the map and injections as the loop leaves them; the first opened tab, if any, is activated |
| Background.Service.SendOne | background.js:91-119 | one entry: a dead tab's entry is deleted and adds no result; a live one is sent the text and adds its result, so the results are those of one more entry |
| Background.Service.SendToAll | background.js:88-123 | `sendToAllAITabs`: the map keeps exactly the entries whose tab exists; the results are one per such entry, in order |
| Background.Service.SendLoop | background.js:91-120 | the loop over a snapshot of the entries leaves the kept entries and gives their results, one message per result |
| Background.Service.HandleMessage | background.js:8-44 | each action's answer: the opened tabs, the send results, the map unchanged, or success after registering; any other message gets no answer |
| Background.ResultsOnlyLiveTabs | background.js:94-98 | every result comes from a tab that still exists |
| Background.LiveTabGetsResult | background.js:91-119 | every remembered tab that still exists gets a result for its site and tab |
| MainPanel.Appended | main/main.js:380-412 | `addLog`: the entry goes last; below 100 entries nothing is dropped; at 100 the oldest is dropped; the log never exceeds 100 |
| MainPanel.Logged | main/main.js:380-412 | successive `addLog` calls keep the log within 100 entries |
| MainPanel.Newest | main/main.js:408-411 | the newest entries, at most 100, as a suffix |
| MainPanel.LogKeepsNewest | main/main.js:408-411 | whatever is logged, the log holds exactly the newest 100 of all entries ever logged |
| MainPanel.Preview | main/main.js:269 | `substring(0, 50)`: a prefix of the question, of length the smaller of 50 and its own |
| MainPanel.SuccessCount | main/main.js:276 | the count of successful results is at most the number of results |
| MainPanel.AllSucceededIff | main/main.js:276-278 | the success count equals the total exactly when every result is a success |
| MainPanel.FindSite | main/main.js:282 | `find`: the first listed site with that id, no earlier site having it; none exactly when no site has it |
| MainPanel.ResultLines | main/main.js:281-287 | one line per result at most, each a site result marked success exactly when the send succeeded |
| MainPanel.ResultLinesCover | main/main.js:281-287 | every result whose site is listed gets a line with that site's name and outcome |
| MainPanel.SendReport | main/main.js:274-291 | the report is never empty and opens with a summary exactly when the answer is a successful send response |
| MainPanel.SummaryIsSuccessIff | main/main.js:276-278 | the summary counts successes and total, and is a success line exactly when every tab reported success |
| MainPanel.RemovedAt | main/main.js:333 | `splice(index, 1)`: one site fewer, those before the index kept and those after shifted down |
| MainPanel.RemovedAtRestores | main/main.js:333 | putting the removed site back at its index restores the list |
| MainPanel.CustomSite | main/main.js:308-316 | the added site is enabled, custom, has no hostname and an id starting with `custom_` |
| MainPanel.EnabledSitesAppend | main/main.js:152 | filtering a list with one more site adds that site at the end exactly when it is enabled |
| MainPanel.PreviewCards | main/main.js:148-197 | one card per enabled site, in order, with its name and url, marked open exactly when the map knows a tab for it |
| MainPanel.ActionOf | main/main.js:184-190 | an open card activates the site's known tab; any other card opens its site |
| MainPanel.CardsAreEnabledSites | main/main.js:152-159 | every card comes from an enabled site, and every enabled site has its card |
| MainPanel.Panel.constructor | main/main.js:2-3 | the page starts with no sites, no tabs and an empty log |
| MainPanel.Panel.AddLog | main/main.js:380-412 | the log becomes the old log with the entry appended under the 100-entry cap |
| MainPanel.Panel.ClearLog | main/main.js:415-418 | the log is emptied |
| MainPanel.Panel.SaveConfig | main/main.js:34-41 | the site list is stored and the save is logged |
| MainPanel.Panel.LoadConfig | main/main.js:24-31 | the sites are the stored list, or none when nothing is stored, and the load is logged |
| MainPanel.Panel.SetEnabled | main/main.js:109-113 | only that site's enabled flag changes, to the box's state, and the list is stored |
| MainPanel.Panel.AddCustomAI | main/main.js:295-327 | a site is added exactly when all four trimmed fields are non-empty, appended and stored with two log lines; otherwise only an error line |
| MainPanel.Panel.AddTrimmed | main/main.js:303-326 | the same, once the fields are trimmed |
| MainPanel.Panel.DeleteAISite | main/main.js:330-339 | when confirmed, exactly the site at the index is removed and the list stored; otherwise nothing changes |
| MainPanel.Panel.ResetConfig | main/main.js:342-350 | when confirmed, the list is emptied and stored; otherwise nothing changes |
| MainPanel.Panel.OpenAllAI | main/main.js:200-218 | the whole list is sent; a successful answer records every opened tab in order, any other leaves the map and logs a failure |
| MainPanel.Panel.RecordTabs | main/main.js:209-211 | the map receives the opened tabs' successive assignments |
| MainPanel.Panel.OpenSingleAI | main/main.js:221-230 | the created tab is recorded under the site, every other site's tab kept |
| MainPanel.Panel.CloseAllAI | main/main.js:233-253 | with no known tab only an error line; otherwise every known tab is closed in order and the map emptied |
| MainPanel.Panel.SendToAllAI | main/main.js:256-292 | the trimmed question is sent exactly when it is non-blank and a tab is known, and the answer's report is logged; otherwise the matching error line |
| MainPanel.Panel.UpdateStatus | main/main.js:353-371 | a tabs answer replaces the map and sets the badge to the count or to not started; no answer changes nothing |
| MainPanel.AddedSiteGetsCard | main/main.js:318-321 | a site added through the form gets its preview card at the end |
| MainPanel.ClosesEveryKnownTab | main/main.js:241-247 | every tab the map knows is among those closed |

## Left out

- Browser APIs (`chrome.storage`, `chrome.tabs`, `chrome.windows`, `chrome.system.display`, `chrome.scripting`, runtime messaging) are not called. Their answers are parameters, and their requests are recorded in fields such as created URLs (the background's and the window manager's), injected tabs, sent messages and closed tabs.
- Real DOM and CSS semantics are not modelled: selector matching, computed style, layout boxes and event propagation. The selector engine and the element records stand in for them.
- `document.execCommand`, Selection and Range, cursor placement and Quill's `setText` are foreign browser and editor behaviour. Their possible faults are a parameter of the fill strategies.
- Timers and asynchronous ordering are not modelled. Steps are sequential, including the 200, 500, 1000 and 2000 ms delays, the injection delays and promise chains.
- The `saveConfig` storage callback logs its line after the caller's later synchronous steps. The model logs the save line after the caller's own line, the order the page shows.
- Sorting the candidates in place in the configuration tools is modelled by its first element (`Ranking.Best`). Only that element is read.
- `Css.Render` writes ids, class names and attribute values without CSS escaping, as the tools do.
- ElementPicker.GeneratedSelectorMatchesPick: holds for the selector's syntax tree, not for the text the picker saves. The saved text is `Css.Render`'s, which does not escape, so for an id such as `radix-:r2:` the saved `#radix-:r2:` is not a valid selector. The saved configuration then finds nothing: content-scripts/iframe-injector.js skips the throwing query, and the unguarded query of content-scripts/injector.js throws.
- Detector.InputSelectorMatches: holds for the selector's syntax tree, not for the unescaped text the detector reports. An id or class holding `:` or `/` renders as text that is not a valid selector.
- ConfigGenerator.SelectorMatchesElement: holds for the selector's syntax tree, not for the unescaped text the generated configuration prints. An id or class holding `:` or `/` renders as text that is not a valid selector.
- Detector.FirstUniqueAttr: decides uniqueness on the selector's syntax tree and never fails. tools/detector.js:80 calls `querySelectorAll` outside any `try`, so an attribute value holding `"` throws `SyntaxError` there and ends the script with no report.
- Detector.GenerateSelector: never fails. The class rule at tools/detector.js:69 is not guarded, so a class name such as `md:flex` or `w-1/2` throws `SyntaxError` and ends the script; `Detector.RunDetector` always reports.
- ConfigGenerator.AttrRule: decides uniqueness on the selector's syntax tree and never fails. tools/config-generator.js:293 and 299 are not guarded, so an attribute value holding `"` throws `SyntaxError` and ends the script with no configuration.
- ConfigGenerator.GenerateSelector: never fails. The class rule at tools/config-generator.js:282 is not guarded, so a class name such as `md:flex` throws `SyntaxError` and ends the script; `ConfigGenerator.RunGenerator` always reports.
- Common.Lower: lower-cases ASCII letters only. JavaScript's `toLowerCase` also maps other scripts' capitals.
- ConfigGenerator.Prefix10: counts characters (Unicode scalar values). JavaScript's `substring(0, 10)` counts UTF-16 code units, so a text with characters outside the Basic Multilingual Plane is cut at a different place.
- MainPanel.Preview: counts characters, where `substring(0, 50)` counts UTF-16 code units, with the same difference.
- The `testConfig` console helper of tools/config-generator.js is not modelled. It is a developer aid.
- The date stamps in generated configurations are not modelled.
- Random and clock-based ids are parameters: `Math.random()` in selector-config/selector-config.js, `Date.now()` elsewhere. The `currentSplitTimestamp` and `splitViewTimestamp` values written to storage are not modelled.
- The following UI is not modelled: notifications, `alert`, HTML markup of cards and panels, CSS animations, fullscreen, the character counter, the clipboard button, the site list's rendering and the `DOMContentLoaded` render and bind steps.
- `confirm` and `prompt` answers are parameters.
- In split-view/split-view.js, `getAllSites` and `toggleSite` are not modelled. A stored site list that is truthy but not an array is read as no list.
- popup/popup.js is UI glue and is not part of this model. Its `toggleAISite` duplicates `toggleSite` in the split view.
- `checkIframeLoginStatus` in split-view/split-view.js is a timer-driven UI hint and is not modelled.
- The `openAndMark` and `testSend` buttons of selector-config/selector-config.js only send messages to a tab and are not modelled.
- The `source` field of a stored configuration is never written with any value other than the user's. The model therefore has no separate preset-source badge.
- `Math.round` in window-manager/window-manager.js:246-249 is not modelled. Window geometry is exact real arithmetic, and the rounding to whole pixels is left out.
- Floating point is replaced by exact arithmetic: `Math.sqrt` in the grid sizing is an integer ceiling square root.
- URL parsing is not modelled. A tab's hostname is a given string.
- JavaScript orders integer-like object keys numerically before other keys. `AiTabs` keeps insertion order for every key, because site ids (hostname keys, `custom_` ids and the preset ids) are not integer-like in practice.
- The window manager's layouts are the four it names. An unknown layout gets no positions and a maximum of 2.
- tab-selector/tab-selector.html is not part of this model. The page is taken to start with both counters at 0 and the start button disabled, the state `updateCounter` gives an empty selection.
- window-manager/window-manager.html is not part of this model. Its layout radio buttons are taken to be one per known layout, which is what makes `ApplyLayout` stop on any other layout.
- `updateStatus` also runs every 5000 ms (main/main.js:421). The timer is not modelled; each call is the method.
- MainPanel.Panel.SendToAllAI: does not model the error text of a failed response. Its log line records only that the send failed.
- MainPanel.Panel.OpenSingleAI: assumes `chrome.tabs.create` succeeds. A failed creation leaves the callback's `tab` undefined, which is not modelled.
- test-gemini.js, debug-selectors.js, config.js and the diagnostic console scripts under tools/ are not part of this model. They only log.

## Findings

| source | as written | input that shows it | evidently intended | confidence | as-written member | corrected member |
|---|---|---|---|---|---|---|
| content-scripts/interaction-strategies.js:57-60 | the innerHTML strategy escapes only `<` and `>` before writing the text as markup; the generic strategy's `textContent` write (lines 110-111) normally replaces that markup in the same `fillInput`, so the loss stays only when that write throws | an editable element outside a Quill editor, the text "&lt;", and a generic write that throws: the element is left showing "<" | the text is shown as typed, so `&` is escaped too | not executed; low, since it needs the generic write to throw | InteractionStrategies.EscapeAnglesLossSurvives | InteractionStrategies.EscapeHtmlRoundTrip |
| tab-selector/tab-selector.js:125-146 | select-all adds the selected mark to the cards of the first four tabs but never removes a mark | five tabs with the fifth selected: after select-all the fifth card is still marked, although it is not selected | the cards show exactly the selection | not executed | TabSelector.SelectAllLeavesStaleMark | TabSelector.Selector.SelectAll |
| content-scripts/injector.js:193 | the editable branch sets `innerHTML` to the text with each line break replaced by `<br>` and nothing escaped | the text "&lt;" is written unchanged and shown as "<"; a typed `<b>` likewise becomes a tag | the element shows the text as typed, with its line breaks | not executed | Injector.BrLinesLosesEntities | Injector.BrMarkupRoundTrip |
