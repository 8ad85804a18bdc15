# A verified model of the muse browser toolkit core

This project is a Dafny model of the logic inside a small browser-side helper library, together with proofs about that logic. The library's helpers fall into these groups:

- **Style and script injection:** inject a stylesheet or a script from a URL or from text into `head` or `body`; inject a list of them in order along a promise chain; remove the `<script>` elements whose `src` contains a name.
- **Hiding rules:** build CSS hiding rules (`displayNone`, `opacityZero`, `visibilityHidden`) and apply them inline or as style sheets.
- **Darkmode:** templates for a page-wide invert filter and its presets, and per-element rules (methods 1 to 3).
- **Waiters:** wait for a global function or object, or for a property one level below a global, by polling with an interval and a timeout. Wait for a DOM element with a mutation observer and a timeout.
- **Selectors:** element lookups, one at a time or in a list.
- **Cloning:** clone an element into a destination.
- **Functions:** `containsAny` over strings; the function-call list and the original parameters of a called function.
- **Documentation page:** the Python generator that assembles the functions documentation page from JSDoc comments.

The model takes the same shape as the code:

- Straight-line checks and templates are functions.
- Loops that push into an accumulator are methods with loop invariants. Each method is proved equal to a specification function (`Collect.Each`, `Collect.Chain`, `Dom.Kept`, `FunctionFn.AllMatches`, `DocGen.Markdown`). Lemmas then prove the source's promises about those functions.
- The removal of `<script>` elements changes `Dom.Document.scripts` in place.
- The poll waiters are classes whose timer flags and promise are fields. Each callback is a method whose new state is the matching step of the pure machines `Poll` and `Selector.Run`.

The browser's effects are inputs:

- `document.querySelector`/`querySelectorAll` are oracles (`Dom.Query`, `Dom.QueryAll`).
- Whether an appended element loads is an oracle (`Dom.LoadOracle`).
- The window is a map of globals.
- Timers and mutation callbacks are events in the order they fire.
- The regular expressions are oracles that give their matches (`FunctionFn.Matcher`, `DocGen.Extractor`).

A promise is a `Settlement`: `Pending`, `Resolved` or `Rejected`. An error thrown inside a timer or `onerror` callback rejects nothing, because nothing catches it. For the poll waiters such errors go into the state's `uncaught` list.

Where the toolkit's design notes and its code disagree, the model follows the code:

- **A timeout in the function and object waiters never rejects the promise.** The timeout callback throws inside the timer, so the promise stays pending for ever (`Poll.TimeoutFirst`). The design notes describe a timeout failure instead.
- **The timeout messages differ from the design notes.** The function waiters say 'Failed to wait for function … after …ms. Function not found.'. The object waiters say 'Timed out waiting for object.', with no duration.
- **A zero timeout does not fail immediately.** It is one more event, and its only effect is to end the wait.
- **The element waiter leaves its timeout armed when the element is found at the first check.** The later timeout disconnects the already disconnected observer and calls `reject` on a settled promise, which does nothing (`Selector.FoundAtOnceLeavesTimerArmed`).
- **The second-level guard does not skip missing first levels.** The guard `typeof window[firstLevel] !== undefined` compares a string with `undefined`, so it always passes. A missing first level therefore throws a TypeError on every tick, and the interval keeps running (`FunctionFn.GuardAlwaysPasses`, `ObjectFn.SecondLevelProbeMeaning`).
- **`Style.removeExternal` removes `<script>` elements, not stylesheets,** and it returns true whether or not anything matched.

## Model

| member | source | states |
|---|---|---|
| Dom.ParseLocation | source/style.ts:29-33 | only 'head' and 'body' are valid locations, and 'head' is the head |
| Dom.HeadUrlParameters | source/style.ts:97-104 | one `{ url, location: 'head' }` per URL, in order, with the given `wait` (true for the script form, script.ts:89-97) |
| Dom.Kept | source/style.ts:125-128 | the scripts left after removal never outnumber those before |
| Dom.KeptMembers | source/style.ts:125-128 | a script is left exactly when it was there and its src does not include the name |
| Dom.KeptShrinksIffMatch | source/script.ts:109-116 | something is removed exactly when some src includes the name |
| Dom.AnyIncludesMember | source/script.ts:109-114 | the `removed` flag is set exactly when some script's src includes the name |
| Dom.KeptAllWhenNoMatch | source/script.ts:110-111 | when no src matches, every script stays |
| Dom.EmptyNameRemovesAll | source/style.ts:126 | the empty name removes every script, and on a non-empty page counts as a match |
| Dom.Document.RemoveScriptAt | source/style.ts:127 | `removeChild` takes exactly that script out and keeps the others in order |
| Js.GetProperty | source/function.ts:54 | reading a property of undefined or null is a TypeError, and nothing else is; an object or function gives what the read reaches on it, a string its `length` or a `String.prototype` member, a boolean or number its prototype's member, and an absent key undefined |
| Selector.Destructure | source/selector.ts:15 | a bare string passed where the parameter object belongs destructures to the defaults (empty selector, no wait) |
| Selector.GetElement | source/selector.ts:15-30 | an empty selector fails with 'Selector parameter is empty.' wrapped as 'Failed to get element from selector.', whatever `wait` says; with `wait` the call hands over to `waitForElement`; otherwise it gives the first match or null, and a failed query is wrapped the same way |
| Selector.Find | source/selector.ts:18-24 | the non-waiting lookup: the empty-selector error, otherwise the query result with its failure wrapped |
| Selector.EmptySelectorIgnoresWait | source/selector.ts:18-22 | the empty check comes before the `wait` branch |
| Selector.Begin | source/selector.ts:40-61 | the call time: a lookup that throws rejects at once with nothing armed; otherwise observer and timer are armed, and the promise is resolved at once when the element exists |
| Selector.OnMutation | source/selector.ts:43-50 | a mutation that finds the element disconnects the observer, clears the timer and resolves a pending promise; otherwise the state and the promise are unchanged, except that a throwing lookup is recorded as uncaught |
| Selector.OnTimeout | source/selector.ts:57-61 | the timeout disconnects the observer and rejects a pending promise with the bare string 'Timed out waiting for element.'; a settled promise stays as it was |
| Selector.FirstSettlementWins | source/selector.ts:42-60 | once settled, later callbacks never change the promise |
| Selector.QuietAfterEnd | source/selector.ts:46-58 | with observer disconnected and timer cleared, nothing changes any more |
| Selector.LiveWaitSettlesFirst | source/selector.ts:43-61 | a live wait settles as the first mutation that finds the element (resolve), or the timeout (reject with 'Timed out waiting for element.'), whichever comes first |
| Selector.WaitForElementOutcome | source/selector.ts:39-63 | the whole call: an immediate hit resolves; otherwise the first settling event decides |
| Selector.FoundAtOnceLeavesTimerArmed | source/selector.ts:41-42 | a hit at call time leaves the timer armed; when it fires it disconnects the observer and leaves the promise resolved |
| Selector.ElementWaiter.constructor | source/selector.ts:40-56 | the waiter starts in the state `Begin` describes |
| Selector.ElementWaiter.Mutation | source/selector.ts:43-50 | a mutation callback is one `OnMutation` step |
| Selector.ElementWaiter.TimeoutFires | source/selector.ts:57-61 | the timeout callback is one `OnTimeout` step |
| Selector.GetArrayOfElements | source/selector.ts:68-85 | one element per parameter object, in order, along the chain; the first failure rejects with 'Failed to get array of elements.' wrapping it, and a pending lookup leaves the chain pending |
| Selector.GetList | source/selector.ts:93-102 | `querySelectorAll`'s list, or its failure wrapped as 'Failed to get element collection from selector.' |
| Selector.GetListOfScripts | source/selector.ts:109-112 | the list for 'script', or that failure wrapped |
| Selector.GetListOfStyles | source/selector.ts:119-122 | the list for 'style', or that failure wrapped |
| Style.Inject | source/style.ts:22-65 | fails exactly when url and text are both empty (checked first) or the location is invalid, always wrapped as 'Failed to inject style.'; a url gives a stylesheet link with that href and ignores the text; otherwise a style element with the text; the location and `wait` are kept |
| Style.InjectTextHead | source/style.ts:112-114 | non-empty text gives a style element in the head; empty text is the nothing-to-inject error |
| Style.InjectArray | source/style.ts:73-90 | exactly the promise chain: one result per parameter object, in input order; the first rejection wrapped as 'Failed to inject array of styles.' |
| Style.InjectArrayHeadUrl | source/style.ts:97-105 | resolves exactly when every URL is non-empty, with one stylesheet link per URL in order; otherwise rejects with the empty-URL error, nested |
| Style.RemoveExternal | source/style.ts:122-135 | returns true, and the scripts left are exactly those whose src does not include the name |
| Style.DeclarationsDistinct | source/style.ts:151-164 | exactly the three hide methods have a declaration, and no two share one |
| Style.RuleWrapsInline | source/style.ts:165 | the rule form is `selector { declaration }`, the inline form being the declaration; the rule is never empty and contains the declaration |
| Style.Declaration | source/style.ts:151-164 | a declaration exists exactly for the three hide methods, and each ends in ` !important;` |
| Style.CssString | source/style.ts:148-167 | inline, the declaration alone; otherwise a rule that starts with the selector and ends with ` }` |
| Style.Inline | source/style.ts:184-193 | succeeds exactly when the selector finds an element, setting its style attribute to the css; every failure is wrapped as 'Failed to apply inline style.' |
| Style.SheetStepSucceeds | source/style.ts:309-313 | the global form never fails: the rule becomes a style element in the head |
| Style.SheetsForEverySelector | source/style.ts:256-263 | the global array form gives one style element per selector, in order |
| Style.GenericMethod | source/style.ts:203-323 | the four non-waiting branches (single or array, inline or global), each with its own failure message; the array forms give one item per selector |
| Style.InlineEach | source/style.ts:224-236 | the inline loop over an array equals `Collect.Each` over the inline steps: one styled element per selector, in order, or the first failure |
| Style.SheetEach | source/style.ts:256-268 | the global loop over an array gives one style element per selector, in order, and never fails |
| Darkmode.PageCssRules | source/darkmode.ts:19-25 | the page CSS holds the white-background rule and the filter rule with the invert value and the additional filters |
| Darkmode.PageCss | source/darkmode.ts:19-25 | the template opens with a line break and the indented background rule, and ends with the filter rule, a line break and the closing indentation |
| Darkmode.FilterRuleParts | source/darkmode.ts:22 | the filter rule holds `invert(<value>)` and the additional filters |
| Darkmode.InvertColors | source/darkmode.ts:35-45 | always succeeds with a head style element holding the page CSS: the catch is unreachable |
| Darkmode.InvertColorsAndHueRotate | source/darkmode.ts:57-67 | the same element as `invertColors` with `hue-rotate(<rotation>deg) ` put before the additional filters |
| Darkmode.InvertRotateRules | source/darkmode.ts:59-60 | the CSS holds the invert value, the hue rotation and the caller's filters |
| Darkmode.InvertAndHueRotate90 | source/darkmode.ts:78-81 | invert 0.9, rotation 180, default tags |
| Darkmode.InvertAndHueRotate85 | source/darkmode.ts:87-90 | invert 0.85, rotation 180, default tags |
| Darkmode.InvertAndHueRotateAltTagsAndContrast85 | source/darkmode.ts:96-101 | invert 0.85, tags 'html, img, video', 'hue-rotate(180deg) contrast(0.95)' |
| Darkmode.ElementCssEmptyIff | source/darkmode.ts:113-139 | the per-element CSS is empty exactly for methods other than 1, 2 and 3 |
| Darkmode.ElementCss | source/darkmode.ts:113-139 | methods 1 to 3 give a template that opens with a line break and ends with the closing indentation; any other method gives '' |
| Darkmode.ElementCssRules | source/darkmode.ts:115-133 | method 1 holds the colour, background and invert rules; method 2 the colour and background rules; method 3 the image invert rule |
| Darkmode.SheetStepOutcome | source/darkmode.ts:152-153 | a known method gives a head style element with its CSS; any other method is the nothing-to-inject error |
| Darkmode.EachSheetFails | source/darkmode.ts:149-156 | the array form fails exactly for an unknown method and a non-empty array, with the nothing-to-inject error |
| Darkmode.ApplyAll | source/darkmode.ts:151-155 | the loop is the in-order collection over the selectors |
| Darkmode.GenericMethod | source/darkmode.ts:147-163 | fails exactly for an unknown method when there is a selector, with the wrapped nothing-to-inject error; otherwise one style element per selector, or one for a single selector |
| Script.Inject | source/script.ts:21-56 | fails exactly when url and text are both empty or the location is invalid, wrapped as 'Failed to inject script.'; the element is a text/javascript script with src = url when url is non-empty, else innerHTML = text |
| Script.InjectArray | source/script.ts:64-81 | exactly the promise chain, the first rejection wrapped as 'Failed to inject scripts in bulk.' |
| Script.InjectArrayHeadUrlWait | source/script.ts:89-98 | resolves exactly when every URL loads, with one load event per URL in order; rejects exactly when an empty URL comes before any URL that fails to load; otherwise stays pending |
| Script.RemoveExternal | source/script.ts:105-122 | returns true exactly when some script's src includes the name; the scripts left are those whose src does not |
| Script.RemoveExternalArray | source/script.ts:131-144 | one `{ scriptName, removed }` per name, in order, and the scripts left after all the removals |
| Script.RemainingMembers | source/script.ts:134-137 | a script survives the bulk removal exactly when its src includes none of the names |
| Script.RemovalsShape | source/script.ts:134-137 | one result per name, carrying that name |
| Script.RemovalsPrefix | source/script.ts:134-137 | the results for the first names do not depend on the later ones |
| Script.RemovalAt | source/script.ts:135-136 | the k-th result reports whether the k-th name matched what the earlier removals left |
| Script.RemovedIff | source/script.ts:135-136 | the k-th `removed` is true exactly when some script includes that name and none of the earlier names |
| Script.NothingRemovedKeepsAll | source/script.ts:108-116 | `removed` stays false exactly when the page is unchanged |
| Poll.Outcome | source/function.ts:20-33 | the reference outcome is never a rejection |
| Poll.OnTick | source/function.ts:20-27 | a tick counts one check; a hit clears both timers and resolves a pending promise; a miss or a throw leaves the timers and the promise alone, and a throw is recorded as uncaught |
| Poll.OnTimeout | source/function.ts:29-33 | the timeout clears both timers, leaves the promise as it was and records its error as uncaught |
| Poll.QuietAfterEnd | source/function.ts:23-30 | once both timers are cleared nothing is checked, resolved or thrown any more |
| Poll.LiveRun | source/function.ts:20-33 | a live waiter settles as the reference outcome, after one check per tick until the end |
| Poll.WaitOutcome | source/function.ts:17-39 | from the call: the first hit before the timeout resolves with its value; the promise is never rejected; no check runs before the first tick |
| Poll.OutcomeResolved | source/function.ts:20-27 | resolves with v exactly when the first hit comes before any timeout and finds v |
| Poll.TimeoutFirst | source/function.ts:29-33 | a timeout before any hit leaves the promise pending with both timers gone and the timeout error thrown last |
| FunctionFn.GuardAlwaysPasses | source/function.ts:53 | the second-level guard passes for every window |
| FunctionFn.SecondLevelProbeMeaning | source/function.ts:52-61 | a tick throws exactly when the first level is undefined or null, and finds exactly a function the read reaches below it (a primitive's prototype methods included), handing back that function |
| FunctionFn.StringPrototypeMethodFound | source/function.ts:53-58 | with the global `name` the string 'x', waiting for `name.toString` finds `String.prototype.toString` |
| FunctionFn.Wait.constructor | source/function.ts:17-33 | both timers armed, nothing checked, promise pending |
| FunctionFn.Wait.Tick | source/function.ts:20-27 | one interval callback: a global that is a function clears both timers and resolves |
| FunctionFn.Wait.TimeoutFires | source/function.ts:29-33 | clears the interval and throws 'Failed to wait for function <name> after <timeout>ms. Function not found.' |
| FunctionFn.WaitFor2ndLevel.constructor | source/function.ts:49-66 | both timers armed, nothing checked, promise pending |
| FunctionFn.WaitFor2ndLevel.Tick | source/function.ts:52-61 | one interval callback over `window[firstLevel][secondLevel]` |
| FunctionFn.WaitFor2ndLevel.TimeoutFires | source/function.ts:62-66 | clears the interval and throws the second-level message |
| FunctionFn.GetList | source/function.ts:78-96 | every match of every script, script by script, each script's matches in order |
| FunctionFn.AllMatchesAppend | source/function.ts:83-89 | the list for a page split in two is the two lists joined |
| FunctionFn.AllMatchesMembers | source/function.ts:83-89 | a match is listed exactly when some script yields it |
| FunctionFn.GetOriginalParameters | source/function.ts:103-120 | the ','-split arguments of the first match whose name includes the function name, or 'Function name not found.' wrapped |
| FunctionFn.FirstParametersMeaning | source/function.ts:106-114 | succeeds exactly when some match's name includes the function name; the result comes from the first such match, and joining it with ',' gives back that match's argument text |
| FunctionFn.DefaultNameTakesFirst | source/function.ts:103-109 | the default empty name takes the first call of all |
| ObjectFn.ObjectProbeMeaning | source/object.ts:18-19 | a tick finds exactly a global that is an object or function, handing back that value, and never throws |
| ObjectFn.SecondLevelProbeMeaning | source/object.ts:51-60 | a tick throws exactly while the first level is nullish, and finds exactly an object or function the read reaches below it (a primitive's prototype members included), handing back that value |
| ObjectFn.StringPrototypeMemberFound | source/object.ts:52-57 | with the global `name` the string 'x', waiting for `name.toString` finds the `String.prototype` member |
| ObjectFn.Wait.constructor | source/object.ts:14-30 | both timers armed, nothing checked, promise pending |
| ObjectFn.Wait.Tick | source/object.ts:17-24 | one interval callback: an object global clears both timers and resolves with it |
| ObjectFn.Wait.TimeoutFires | source/object.ts:26-30 | clears the interval and throws 'Timed out waiting for object.' |
| ObjectFn.WaitFor2ndLevel.constructor | source/object.ts:48-66 | both timers armed, nothing checked, promise pending |
| ObjectFn.WaitFor2ndLevel.Tick | source/object.ts:51-60 | one interval callback over `window[firstLevel][secondLevel]` |
| ObjectFn.WaitFor2ndLevel.TimeoutFires | source/object.ts:62-66 | clears the interval and throws 'Timed out waiting for second level object.' |
| Clone.Validate | source/clone.ts:20-29 | exactly one source selector may be given; two is checked first; the chosen one is non-empty |
| Clone.ElementAsWritten | source/clone.ts:18-46 | as written, every call fails with an error wrapped as 'Failed to clone element.' |
| Clone.CloneAndAttach | source/clone.ts:34-40 | a null source throws; without a destination the detached clone; otherwise the clone appended to the destination's first match, and a null destination throws |
| Clone.ElementAsWrittenAlwaysFails | source/clone.ts:18-45 | as written, every call fails wrapped as 'Failed to clone element.', past validation with the empty-selector error |
| Clone.ExistingSourceStillFails | source/clone.ts:33 | with `#a` present, the corrected call clones it and the call as written fails |
| Clone.Element | source/clone.ts:18-46 | with the source looked up as a parameter object: the validation errors, a failed or empty source lookup, a failed destination lookup (wrapped by the lookup) or an empty one (a TypeError from `appendChild` on null), all wrapped as 'Failed to clone element.'; on success the clone's original and its parent |
| Clone.ElementAll | source/clone.ts:53-71 | an empty array fails with 'Parameter array is empty.'; otherwise one clone per object, in order, the first failure wrapped as 'Failed to clone elements in bulk.' |
| Clone.ElementAllAsWrittenFailsFirst | source/clone.ts:61-64 | as written, the bulk form fails on its first entry |
| ArrayFn.ContainsAny | source/array.ts:12-17 | true exactly when some substring occurs in the source string |
| ArrayFn.EdgeCases | source/array.ts:14 | no substrings give false; the empty substring always counts, `indexOf('')` being 0 |
| ArrayFn.Monotone | source/array.ts:13-15 | adding substrings before or after can only turn false into true, and the result for a joined list is the disjunction |
| DocGen.AssignPaths | functions_md_generator.py:29 | dictionary assignment keeps the keys and their order, adding a new key last |
| DocGen.AssignEntries | functions_md_generator.py:29 | the new value is stored and every other item is an old one |
| DocGen.AssignNew | functions_md_generator.py:29 | a new key is appended |
| DocGen.CollectedMembers | functions_md_generator.py:15-29 | a file is in the dictionary exactly when it was scanned and has matches (a file that raised has none), and it holds its matches |
| DocGen.CollectedInVisitOrder | functions_md_generator.py:23-29 | with each file visited once, the dictionary is the files with matches in visit order |
| DocGen.TsxSkipped | functions_md_generator.py:25 | a '.tsx' name does not end in '.ts' and adds no path |
| DocGen.TsPathsMembers | functions_md_generator.py:24-26 | the scanned paths of a directory are exactly its '.ts' names joined to it |
| DocGen.SectionsAppend | functions_md_generator.py:34-36 | the page body is the sections in dictionary order |
| DocGen.FunctionEntriesAppend | functions_md_generator.py:37-39 | a section lists its functions in match order |
| DocGen.EveryFunctionListed | functions_md_generator.py:37-39 | each match appears as '### <name>\n', its JSDoc and '\n\n' |
| DocGen.SectionListed | functions_md_generator.py:34-36 | every dictionary entry's section is on the page body |
| DocGen.EveryFunctionOnPage | functions_md_generator.py:25-39 | every function extracted from a scanned `.ts` file appears on the generated page as '### <name>\n', its JSDoc and '\n\n' |
| DocGen.HeaderFirst | functions_md_generator.py:32 | the page begins with '# Functions Documentation\n\n', and an empty walk gives only that |
| DocGen.CollectFunctions | functions_md_generator.py:20-29 | the nested walk loop builds exactly the dictionary `Collected` describes |
| DocGen.AppendSection | functions_md_generator.py:36-39 | appends '## <relpath>\n' and the function entries |
| DocGen.RenderSections | functions_md_generator.py:32-39 | the title followed by the sections of the dictionary's files |
| DocGen.GenerateFunctionsMd | functions_md_generator.py:19-39 | the page assembled is exactly `Markdown` of the walk |

## Findings

| source | as written | input that shows it | evidently intended | confidence | as-written member | corrected member |
|---|---|---|---|---|---|---|
| source/clone.ts:33 | `Selector.get(sourceSelector)` passes the chosen selector as a bare string; `getElement` destructures it to the default empty selector and throws | `Clone.element({ elementSelector: '#a' })` on a page where `#a` exists fails with 'Failed to clone element.' (Clone.ExistingSourceStillFails) | look the source up as `{ selector: sourceSelector }`, as the destination lookup on line 36 does | high, not executed | Clone.ElementAsWritten | Clone.Element |

`Clone.ElementAll` uses the corrected `Clone.Element`. `Clone.ElementAllAsWrittenFailsFirst` shows that the bulk form as written fails on its first entry.

## Left out

- **The `wait` branches of `Style.Element.inline` and `genericMethod`** (source/style.ts:177-183, 207-223, 239-255, 275-285, 298-308). They chain the element wait into promises. In the single-selector branches (source/style.ts:275-285, 298-308) the catch handler throws inside a callback, where nothing handles it. In the array branches (source/style.ts:217-223, 251-255) the `.catch` throw rejects the returned chain, so the caller sees it. The non-waiting branches are modelled, and the waiting machine is modelled on its own in `Selector`.
- **Style.Inline:** only the `wait = false` branch is modelled. With `wait`, the style attribute is set once the element waiter resolves.
- **Thin wrappers over modelled members:**
  - the hide methods `displayNone`/`opacityZero`/`visibilityHidden` and the darkmode `method1`/`method2`/`method3`, which fix the method;
  - every alias (`add`, `addTextHead`, `addArray`, `deleteExternal`, `deleteExternalArray`, `getList`, `getAll`, `getParameters`, `get`, `getArray`, `list`, `allScripts`, `allStyles`, `invert`, `invertRotate`, `wait2nd`).
- **DOM effects** (`createElement`, `appendChild`, `setAttribute`, `cloneNode`):
  - The elements made are values (`Dom.Element`, `Style.Styled`, `Clone.ClonedNode`).
  - An append is recorded as its location, not as a change to the document.
  - Only the `<script>` list is changed in place.
  - Every `removeExternal` has its page's scripts passed in, in document order, as `Dom.Document.scripts`. The `getListOfScripts` call inside it is not repeated, since its lookup cannot fail.
- **Time:**
  - Timers, the mutation observer and promise scheduling are events in order, with no clock.
  - The `interval` and `timeout` values are stored, but only the timeout value has an effect, through the function waiter's message.
  - These loads are oracles: the load and error events of appended elements, and `Dom.LoadOracle`.
- **Regular expressions:** the function-call pattern (source/function.ts:81) and the JSDoc pattern (functions_md_generator.py:10) are oracles giving their matches.
- **Number rendering:** `invert` and `rotation` are strings in the CSS templates, since rendering them involves floating point. Only the function waiter's timeout is rendered, in decimal.
- **The Python file I/O:** `os.walk` is the walk input; `open`, `print` and the output write are not modelled, and `os.path.relpath` is an input.
- **Error paths that cannot happen in the model:**
  - The catches around `setInterval`/`setTimeout` (source/function.ts:34-37, source/object.ts:31-35): arming timers does not throw.
  - 'Failed to remove script.' and 'Failed to bulk remove scripts.' (source/style.ts:130-134, source/script.ts:117-121 and 139-143): the removal loop does not throw.
  - 'Failed to get list of functions.' (source/function.ts:91-95).
  - 'Failed to invert colors.': `Darkmode.InvertColors` proves that injection never fails.
- Js.GetProperty: a string's index properties (`'x'[0]`) are not modelled; such a key reads the string prototype's members instead. An index reads a one-character string, never an object or function, so this does not change what either second-level waiter finds.
- Style.Inject: `document.body` is assumed to exist. Called from a head script before the body is parsed, appending to the body throws a TypeError, wrapped as 'Failed to inject style.'; the model has no missing body and does not capture that error.
- Script.Inject: `document.body` is assumed to exist, as for `Style.Inject`; appending to a missing body would throw, wrapped as 'Failed to inject script.'.
- Selector.Begin: `document.body` is assumed to exist. With no body, `observer.observe` throws inside the promise executor; this rejects the wait, or, after an immediate resolve, leaves the promise resolved with nothing armed. So `FoundAtOnceLeavesTimerArmed` holds only when a body exists.
- Selector.ElementStep: the outcome of each waiting lookup comes from an oracle indexed by selector. Two entries that wait for the same selector therefore share one outcome, and the oracle is not tied to a run of the element waiter (`Selector.Run`).
