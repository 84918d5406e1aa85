# SnapUp action engine — a Dafny model

SnapUp replays a fixed script of browser actions against a live Selenium
session: visit a site, type, click, read back titles, cookies or script
results. This project models the engine that runs those actions, and it
covers both of the source's drivers:

- the lenient `DriverActions` of `driver_actions.py`. It has a locator-kind
  resolver, a stale-element retry decorator, a script fallback for elements
  that are not interactable, name-based dispatch, and a batch runner that
  quits the browser and exits with status 1 on failure;
- the strict duplicate in `main2.py`. It has weaker alias rules, no retry and
  no fallback, and a batch loop with no exception handling;
- the two `snapup` loops that drive them: fail-fast in `main2.py` and
  notify-and-continue in `main.py`;
- the importer of Selenium IDE `.side` recordings in `utils.py`.

The browser is an opaque collaborator. A `Browser.Session` object holds an
oracle `respond: nat -> Reply`, whose value at k is the browser's answer
(a value or an exception) to the k-th call of the run. It also holds the
`log` of the calls issued so far. Each Python method becomes a method of a
Dafny class (`Driver.DriverActions`, `StrictDriver.DriverActions`) that
issues calls on that session. Its `ensures` clause ties the outcome and the
new log to a pure function of the oracle and the starting position, and
those functions live in modules `Engine`, `Strict`, `StaleRetry`, `Batches`
and `Runners`. The properties of the engine are lemmas about those
functions. A Python call ends as an `Outcome`: `Returned(v)`, `Raised(e)` or
`Exited(code)`. `exit(1)` is `Exited(1)`, which no `except Exception`
handler catches, as with Python's `SystemExit`.

Where the design description and the code differ, the model follows the
code:

- The retry decorator makes three guarded calls and then one unguarded call,
  so up to four calls in all, not three.
- Locator matching is case-sensitive. There is no upper-casing comparison.
- In `input` the visibility wait is outside the `try`, so a wait failure
  propagates. Only `click` swallows its wait failures.
- In `click`, a not-interactable exception raised by the wait itself reaches
  a handler that reads the still unbound `element`, so an UnboundLocalError
  escapes.
- The batch runner normalises `action["locator_type"]` before its `try`. So
  a missing or unsupported locator type raises out of the batch instead of
  quitting and exiting.
- The find_element, find_elements, mouse_down and mouse_up branches pass
  lower-case `By` values back into the resolver. It rejects them, so those
  branches always quit and exit.

## Model

| member | source | states |
|---|---|---|
| `Locators.ConvertLocatorType` | driver_actions.py:38-49 | accepted exactly for the eight canonical names, "linkText", "LINKTEXT" and "CSS"; the aliases map to LINK_TEXT / CSS_SELECTOR, canonical names come back unchanged, every result is canonical, anything else is the unsupported-locator ValueError |
| `Locators.ConvertLocator` | driver_actions.py:41-47 | a non-string locator type equals no alias or name and is rejected; a string is resolved as above |
| `Locators.ConvertIdempotent` | driver_actions.py:41-49 | resolving a resolved kind gives the same kind (idempotence) |
| `Locators.AcceptedInputs` | driver_actions.py:39-47 | the accepted set is exactly the eleven strings; a kind is returned unchanged iff it is canonical |
| `Locators.RejectsProtocolSpellings` | driver_actions.py:41-47 | "id", "css selector", "Id", "css", "linktext" are rejected (case-sensitive) |
| `Locators.ByAttr` | driver_actions.py:54 | `getattr(By, v)` succeeds for every canonical name and gives its lower-case strategy string; any other non-dunder string is an AttributeError, a non-string a TypeError (dunder attributes are listed under Left out) |
| `Locators.ByValuesRejected` | driver_actions.py:131-137 | every lower-case `By` value is rejected when fed back to the resolver |
| `StaleRetry.EscapingCharacterised` | driver_actions.py:24-30 | the call whose outcome leaves the wrapper is preceded only by stale calls and is the first non-stale one unless it is the unguarded last one |
| `StaleRetry.EscapingUnique` | driver_actions.py:24-30 | those two facts determine which call escapes |
| `StaleRetry.WrappedEscapes` | driver_actions.py:21-31 | the wrapper issues exactly the calls of the wrapped calls up to the escaping one and ends as that call ended |
| `StaleRetry.DefaultWrapper` | driver_actions.py:21-31 | with the default of three retries at most four calls happen, all before the escaping one were stale, and a stale outcome escapes only from the fourth |
| `StaleRetry.FirstNotStale` | driver_actions.py:25-26 | a first call that is not stale is the whole wrapper |
| `StaleRetry.FourthStalePropagates` | driver_actions.py:30 | four stale calls: the fourth, unguarded, StaleElement propagates |
| `StaleRetry.OtherErrorPropagatesAtOnce` | driver_actions.py:25-27 | any non-stale exception propagates from the call that raised it, which is the last call made |
| `StaleRetry.StaleTwiceThenSuccess` | driver_actions.py:24-26 | stale, stale, success returns that success after the three calls |
| `StaleRetry.WrappedEndsAsACall` | driver_actions.py:21-31 | the wrapper neither exits nor invents a value: it ends as one of the wrapped calls did |
| `Driver.DriverActions.Retrying` | driver_actions.py:23-30 | the retry loop over the session does exactly what `StaleRetry.Wrapped` says |
| `Browser.QuitThenExit` | driver_actions.py:58-59 | `quit(); exit(1)` exits with status 1 unless `quit` raises |
| `Engine.WaitPresent` | driver_actions.py:51-59 | presence wait: one Wait call; a timeout issues Quit and exits 1, so it never returns normally after a timeout; other failures propagate; a bad locator raises before any call |
| `Engine.WaitReady` | driver_actions.py:69-75 | visible / clickable wait: one Wait call whose failure, a timeout included, propagates; never exits |
| `Engine.InputBehaviour` | driver_actions.py:78-89 | a failing wait propagates; a not-interactable send_keys falls back to the value-setting script with the same text; any other send_keys error is swallowed |
| `Engine.ClickBehaviour` | driver_actions.py:92-102 | a failing wait is swallowed (a not-interactable one becomes UnboundLocalError); a not-interactable click falls back to a script click; other click errors are swallowed |
| `Engine.AttemptShapes` | driver_actions.py:77-102 | exactly when one call of `input` / `click` raises, and that its first call is the wait of the right readiness |
| `Engine.Retried` | driver_actions.py:77-102 | the decorated `input` / `click` never exits and returns only None |
| `Engine.RetriedFirstNotStale` | driver_actions.py:77-92 | a decorated call whose first attempt is not stale is that attempt |
| `Engine.Find` | driver_actions.py:131-137 | normalise, then exactly one lookup with the strategy string; a bad locator raises before any call |
| `Engine.Mouse` | driver_actions.py:169-179 | presence wait then click-and-hold / release; no retry, no fallback; exits only through quit-and-exit 1 |
| `Browser.ForwardRun` | driver_actions.py:104-167 | each forwarder issues one call; returning forwarders give the browser's answer, the others None; failures propagate |
| `Engine.Invoke` | driver_actions.py:67 | `getattr(self, name)(**params)`: a keyword set that does not fit the method's signature, or the `driver` field, raises TypeError |
| `Engine.ExecuteParams` | driver_actions.py:64-66 | every key but "action" is passed; only a `locator_type` of "CSS" is rewritten, to "CSS_SELECTOR"; other keys are untouched |
| `Engine.Execute` | driver_actions.py:61-67 | an unknown action name is a no-op with no call and no error; a known one invokes the method with the rewritten parameters and drops its value |
| `Engine.NoMethodSkipped` | driver_actions.py:63 | "open", "setWindowSize" and "runScript" name no method and are skipped without a call |
| `Engine.MisfitArgumentsRaise` | driver_actions.py:67 | "input" without `input_value`, or "click" with one, raises TypeError before any call |
| `Engine.FindText` | driver_actions.py:221-227 | a lookup followed by the text read(s); a bad locator raises before any call |
| `Engine.AlertText` | driver_actions.py:229-231 | the alert read starts with the SwitchToAlert call and never exits |
| `Engine.RouteOf` | driver_actions.py:188-268 | a forwarder's route carries its own name |
| `Engine.RouteOfBranches` | driver_actions.py:188-268 | the if-chain has a branch exactly for the known names |
| `Engine.RouteAppendsProducing` | driver_actions.py:197-269 | a branch appends one entry exactly for get_title, get_current_url, get_page_source, find_element, find_elements, switch_to_alert, execute_script, get_cookies, get_window_handles and runScript |
| `Engine.InputBranch` | driver_actions.py:188-189 | the input branch appends nothing and never exits |
| `Engine.ClickBranch` | driver_actions.py:191-192 | the click branch appends nothing and never exits |
| `Engine.ScriptBranch` | driver_actions.py:267-269 | a missing `script` key raises KeyError with no call; otherwise one `execute_script` call with the script, ending as the browser answered, and on success the appended entry is exactly that returned value |
| `Engine.ForwardBranch` | driver_actions.py:194-259 | a missing parameter key raises KeyError with no call; otherwise one call of the forwarder with that parameter; a returning method's branch ends with the browser's answer and appends exactly that value, and other branches append nothing |
| `Engine.LocatedBranch` | driver_actions.py:221-226 | on success a find branch appends exactly the value it returned and a mouse branch appends nothing; it exits only by quit-and-exit 1 |
| `Engine.NamedBranch` | driver_actions.py:188-269 | on success the selected branch appends its own returned value when its route produces one, and nothing otherwise; a failing branch appends nothing |
| `Engine.Branch` | driver_actions.py:188-269 | a nameless action raises KeyError; an unmatched name does nothing; on success the appended entry is the branch's returned value when the route produces one |
| `Engine.StepSpec` | driver_actions.py:185-273 | a missing or unsupported locator type raises before the `try`; a successful step of a value-producing action appends exactly the value it returned, and other steps append nothing; it exits only after Quit with status 1 |
| `Engine.Handler` | driver_actions.py:270-273 | an exception inside the `try` quits the browser and exits 1; a nameless action's KeyError escapes the handler |
| `Engine.TryFailureExits` | driver_actions.py:270-273 | a raising branch leads to Quit then exit(1), with no entry appended for that action |
| `Engine.ResultsPerProducingAction` | driver_actions.py:184-274 | a completed batch returns exactly the entries its steps appended, in action order (`Batches.Appended`), and there is one per value-producing action |
| `Engine.ActionEntry` | driver_actions.py:186-269 | within the result list, a returning action contributes its own returned value if it is value-producing, placed after the entries of the actions before it and before those of the actions after it |
| `Engine.TitleEntry` | driver_actions.py:197-198 | a batch of one get_title action with a supported locator type returns the list holding the browser's title answer, after one get_title call |
| `Engine.BatchExitQuits` | driver_actions.py:270-273 | the batch exits only with status 1 and only right after Quit |
| `Engine.LocatorFailureEscapes` | driver_actions.py:186-187 | a missing or unsupported locator type makes the batch raise, issuing no call and not quitting |
| `Engine.LowercaseBranchesExit` | driver_actions.py:221-265 | find_element, find_elements, mouse_down and mouse_up with a valid locator type always take the quit/exit(1) route |
| `Engine.LocatedBranchFails` | driver_actions.py:222-226 | the located branches raise before issuing any call |
| `Engine.UnmatchedActionSkipped` | driver_actions.py:188-269 | an action name without a branch appends nothing, issues nothing and raises nothing |
| `Batches.Plain` | driver_actions.py:188-192 | a primitive whose value the branch drops appends nothing and keeps its outcome and calls |
| `Batches.Appending` | driver_actions.py:197-198 | a value-producing branch appends its value exactly when it returns |
| `Batches.ResultCount` | driver_actions.py:184-274 | when each returning step appends its count, a completed batch holds the initial entries followed by the sum |
| `Batches.BatchResults` | driver_actions.py:184-274 | a batch that returns gives back its initial list followed by what its steps appended, action by action |
| `Batches.AppendedInOrder` | driver_actions.py:185-274 | the entries of a batch over xs + ys are those of xs, then, when every step of xs returned, those of ys |
| `Batches.AppendedAround` | driver_actions.py:185-274 | the entries of a batch are those of the actions before an action, then that action's own, then those of the actions after it |
| `Batches.ExitQuits` | driver_actions.py:270-273 | a batch of steps that exit only after Quit with status 1 does the same |
| `Batches.NeverExits` | main2.py:146-226 | a batch of steps that never exit never exits |
| `Batches.Sequential` | driver_actions.py:185-274 | a batch over xs + ys is the batch over xs continued by the batch over ys |
| `Batches.FirstFailureEnds` | driver_actions.py:185-274 | the first step that does not return ends the batch with its outcome; later actions never run |
| `Driver.DriverActions.WaitForElement` | driver_actions.py:51-59 | the presence wait on the session does what `Engine.WaitPresent` says |
| `Driver.DriverActions.WaitUntil` | driver_actions.py:69-75 | the visible / clickable waits do what `Engine.WaitReady` says |
| `Driver.DriverActions.Find` | driver_actions.py:131-137 | the lookups do what `Engine.Find` says |
| `Driver.DriverActions.Mouse` | driver_actions.py:169-179 | mouse_down / mouse_up do what `Engine.Mouse` says |
| `Driver.DriverActions.Forward` | driver_actions.py:104-167 | each forwarder does what `Browser.ForwardRun` says |
| `Driver.DriverActions.InputOnce` | driver_actions.py:78-89 | one undecorated `input` does what `Engine.InputAttempt` says |
| `Driver.DriverActions.ClickOnce` | driver_actions.py:92-102 | one undecorated `click` does what `Engine.ClickAttempt` says |
| `Driver.DriverActions.Input` | driver_actions.py:77-89 | the decorated `input` does what `Engine.Retried` says |
| `Driver.DriverActions.Click` | driver_actions.py:91-102 | the decorated `click` does what `Engine.Retried` says |
| `Driver.DriverActions.Invoke` | driver_actions.py:67 | `getattr(self, name)(**params)` does what `Engine.Invoke` says |
| `Driver.DriverActions.Execute` | driver_actions.py:61-67 | `execute` does what `Engine.Execute` says |
| `Driver.DriverActions.FindText` | driver_actions.py:221-227 | the lookup-and-read does what `Engine.FindText` says |
| `Driver.DriverActions.AlertText` | driver_actions.py:229-231 | the alert read does what `Engine.AlertText` says |
| `Driver.DriverActions.Step` | driver_actions.py:186-273 | one loop iteration does what `Engine.StepSpec` says |
| `Driver.DriverActions.Batched` | driver_actions.py:184-274 | the loop grows the result list step by step and stops at the first step that does not return |
| `Driver.DriverActions.ExecuteActionsFromJson` | driver_actions.py:182-274 | the batch runner does what `Engine.ExecuteActions` says |
| `Texts.TextOf` | driver_actions.py:223 | `x.text if x else None`: one read for a truthy value, none otherwise |
| `Texts.TextsFromShape` | driver_actions.py:227 | the comprehension reads one text per element in order, stops at the first failing read, and otherwise returns one text per element |
| `Texts.ListTexts` | driver_actions.py:227 | a list is read element by element, giving one text per element when every read returns; an empty str or dict gives `[]`; a non-empty str or dict fails with AttributeError on `.text`; other values are not iterable (TypeError) |
| `Texts.ReadTexts` | driver_actions.py:227 | the comprehension's loop over the session does what `Texts.TextsFrom` says |
| `Strict.WaitPresent` | main2.py:45-51 | rewrites only "linkText" and "CSS", does no validation, and lets every wait failure (a timeout included) propagate; never exits |
| `Strict.WaitAccepts` | main2.py:45-51 | the strict wait issues a call exactly for the canonical names, "linkText" and "CSS"; other strings raise AttributeError, non-strings TypeError |
| `Strict.UpperLinkTextOnlyLenient` | main2.py:46-51 | "LINKTEXT" is not aliased by the strict wait, while the lenient wait resolves it |
| `Strict.Find` | main2.py:94-102 | the finders alias only "CSS" |
| `Strict.FindAccepts` | main2.py:94-102 | the finders issue a call exactly for the canonical names and "CSS"; "linkText" fails |
| `Strict.Interact` | main2.py:59-65 | input / click / mouse gestures: the wait, then the gesture; never exit; return None |
| `Strict.InteractPropagates` | main2.py:59-65 | no delay, retry or fallback: a failing wait or gesture raises its own exception |
| `Strict.Invoke` | main2.py:57 | a misfit keyword set raises TypeError; a strict method never exits |
| `Strict.Execute` | main2.py:53-57 | unknown names are skipped; known ones get every key but "action", unchanged |
| `Strict.ExecuteDoesNotRewrite` | main2.py:53-57 | no CSS rewrite in `execute`: "CSS" is resolved by the primitive's own alias rule and "LINKTEXT" fails |
| `Strict.NoMethodSkipped` | main2.py:55 | "open", "setWindowSize" and "runScript" are skipped without a call |
| `Strict.MisfitArgumentsRaise` | main2.py:57 | "input" without `input_value`, or "click" with one, raises TypeError |
| `Strict.RouteOf` | main2.py:146-224 | the strict if-chain has no runScript branch |
| `Strict.FindText` | main2.py:180-186 | the lookup then the text reads; never exits |
| `Strict.LocatedCall` | main2.py:180-224 | a find primitive ends as the lookup-and-read does and on success appends exactly that value; a mouse primitive appends nothing; never exits |
| `Strict.LocatedBranch` | main2.py:180-224 | on success a find branch appends exactly the value it returned and a mouse branch nothing; never exits |
| `Strict.NamedBranch` | main2.py:146-224 | input and click fail on the undefined helpers; on success the other branches append their own returned value when their route produces one |
| `Strict.StepSpec` | main2.py:146-224 | one strict iteration: no normalisation and no `try`; unmatched names do nothing; a successful value-producing step appends exactly the value it returned; it never exits |
| `Strict.InputClickBranchesFail` | main2.py:147-151 | the input and click branches raise AttributeError for `wait_and_input` / `wait_and_click` before any call |
| `Strict.StrategyNotAName` | main2.py:181-186 | no lower-case `By` value is a `By` attribute name or "CSS" |
| `Strict.LocatedBranchesRaise` | main2.py:180-224 | the find and mouse branches always raise before any call |
| `Strict.RunScriptSkipped` | main2.py:146-224 | a runScript action is skipped by the strict chain but has a branch in the lenient one |
| `Strict.FirstFailureAborts` | main2.py:146-226 | the first raising action ends the batch with that exception; later actions never run |
| `Strict.BatchNeverExits` | main2.py:142-226 | the strict batch never ends the process |
| `Strict.ResultsPerProducingAction` | main2.py:156-224 | a completed strict batch returns exactly the entries its steps appended, in action order, and there is one per value-producing action (runScript excluded) |
| `Strict.ActionEntry` | main2.py:146-224 | within the strict result list, a returning action contributes its own returned value if it is value-producing, between the entries of the actions before and after it |
| `Strict.TitleEntry` | main2.py:156-157 | a strict batch of one get_title action returns the list holding the browser's title answer, after one get_title call |
| `StrictDriver.DriverActions.WaitForElement` | main2.py:45-51 | the strict wait on the session does what `Strict.WaitPresent` says |
| `StrictDriver.DriverActions.Interact` | main2.py:59-65 | the strict gestures do what `Strict.Interact` says |
| `StrictDriver.DriverActions.Find` | main2.py:94-102 | the strict finders do what `Strict.Find` says |
| `StrictDriver.DriverActions.Execute` | main2.py:53-57 | the strict `execute` does what `Strict.Execute` says |
| `StrictDriver.DriverActions.Step` | main2.py:147-224 | one strict iteration does what `Strict.StepSpec` says |
| `StrictDriver.DriverActions.ExecuteActionsFromJson` | main2.py:142-226 | the strict batch runner does what `Strict.ExecuteActions` says |
| `Runners.Body` | main2.py:257-262 | the `with` body starts with the 1024x768 window-size call |
| `Runners.Closed` | main2.py:256-272 | leaving the `with` block issues Quit; an exception is notified once; `exit` passes through |
| `Runners.FailFast` | main2.py:261-262 | the loop without a `try` sends no notification itself |
| `Runners.FailFastNotifiesAtMostOnce` | main2.py:261-272 | a fail-fast run over a non-exiting `execute` sends at most one notification and never exits |
| `Runners.StrictNotifiesAtMostOnce` | main2.py:244-272 | the strict `snapup` sends at most one notification and never ends the process |
| `Runners.FirstFailureStops` | main2.py:260-272 | the first exception stops the remaining actions and produces exactly one notification, after one Quit |
| `Runners.FailFastCleanRun` | main2.py:256-262 | a run on a browser that never fails issues set-up, the loop's calls and Quit, and sends nothing |
| `Runners.ForgiveOutcomes` | main.py:25-30 | the per-action loop goes through, exits, or lets a nameless action's KeyError escape |
| `Runners.ForgiveAppend` | main.py:25-30 | the per-action loop over xs + ys is the loop over xs continued by the loop over ys |
| `Runners.FailureContinues` | main.py:25-30 | a failing action is notified with its name and the loop goes on with the next action |
| `Runners.NamelessEscapes` | main.py:30 | a nameless failing action's KeyError escapes the handler and ends the loop |
| `Runners.ExitNotNotified` | main.py:25-30 | `exit(1)` inside an action ends the run with that status and no notification |
| `Runners.LenientNamelessEscapes` | main.py:28-30 | in `main.py` an action without a name ends the loop with KeyError before any call |
| `Runners.ImportedCommandsSkipped` | utils.py:58-66 | imported open / setWindowSize / runScript actions are skipped by both `execute`s |
| `Runners.ImportedTypeNeedsValue` | utils.py:81-82 | an imported "type" command without a truthy value makes both `execute`s raise TypeError |
| `Runners.ImportedClickWithValue` | utils.py:81-82 | an imported "click" with a truthy value makes both `execute`s raise TypeError |
| `Snapups.FailFastLoop` | main2.py:261-262 | the strict action loop on the session stops at the first exception, as `Batches.Batch` says |
| `Snapups.ForgivingLoop` | main.py:25-30 | the lenient loop on the session notifies and goes on, as `Runners.Forgive` says |
| `Snapups.StrictRun` | main2.py:244-272 | the strict `snapup` issues exactly the calls and notifications of `Runners.StrictSnapup` |
| `Snapups.LenientRun` | main.py:11-40 | the lenient `snapup` issues exactly the calls and notifications of `Runners.LenientSnapup` |
| `SideImport.Index` | utils.py:50 | `v[key]` succeeds exactly on a dict holding the key, else KeyError / TypeError |
| `SideImport.Elements` | utils.py:54-55 | a list is visited item by item |
| `SideImport.MapCommand` | utils.py:58-66 | "type" becomes "input"; every other hashable name passes through unchanged |
| `SideImport.Contains` | utils.py:69 | `"=" in target` on a string is the character test |
| `SideImport.TranslateCommand` | utils.py:56-88 | building one action key by key gives `SideImport.Translate` |
| `SideImport.LoadActionsFromSide` | utils.py:49-90 | the nested loops give `SideImport.Load` |
| `SideImport.CollectOk` | utils.py:55-88 | the inner loop succeeds exactly when every command translates |
| `SideImport.CollectValues` | utils.py:55-88 | the inner loop appends each command's translation in order |
| `SideImport.CollectError` | utils.py:55-88 | a failing inner loop fails with the first failing command's exception |
| `SideImport.CollectAppend` | utils.py:55-88 | the inner loop over xs + ys is the loop over xs continued by ys |
| `SideImport.LoopsFlatten` | utils.py:54-88 | the two nested loops are one loop over all commands, tests in order |
| `SideImport.OneActionPerCommand` | utils.py:49-88 | URL equals the document's "url"; one action per command, tests in order and commands in order; success iff every part is present and every command translates |
| `SideImport.ActionName` | utils.py:58-66 | "type" becomes "input"; every other command name is kept |
| `SideImport.TargetSplitAtFirstEquals` | utils.py:69-72 | a target with "=" is split at the first "=": upper-cased prefix as locator type, the whole remainder (further "=" included) as locator value |
| `SideImport.TargetWithoutEquals` | utils.py:68-74 | a target without "=" is the locator value with no locator type; no target gives neither key |
| `SideImport.InputValueWhenTruthy` | utils.py:81-82 | `input_value` is present exactly when "value" is present and truthy, and it equals that value |
| `SideImport.WithSizeSplit` | utils.py:76-79 | the window-size stage needs exactly one "x"; width and height are the texts around it |
| `SideImport.WindowSizeSplit` | utils.py:76-79 | a setWindowSize command translates iff its target has exactly one "x", otherwise the unpacking ValueError |
| `SideImport.RunScriptRenamesTarget` | utils.py:84-86 | runScript: script equals the target, locator_value is removed, a locator type from "=" remains |
| `SideImport.RunScriptNeedsTarget` | utils.py:84-85 | a runScript command without a target raises KeyError |
| `SideImport.ActionKeys` | utils.py:56-88 | an imported action has only the keys the importer assigns |
| `SideImport.TargetKeeps` | utils.py:68-74 | the target stage touches only locator_type and locator_value |
| `SideImport.SizeKeeps` | utils.py:76-79 | the window-size stage touches only width and height |
| `SideImport.ValueKeeps` | utils.py:81-82 | the value stage touches only input_value |
| `SideImport.ScriptKeeps` | utils.py:84-86 | the runScript stage touches only script and locator_value |
| `Py.SplitFirst` | utils.py:70 | `split("=", 1)` unpacks into two parts exactly when "=" occurs; the prefix holds no "=" and the parts rejoin to the target |
| `Py.Split` | utils.py:77 | `split("x")` gives one more piece than there are "x", none holding "x", rejoining to the target |
| `Py.SplitInTwo` | utils.py:77 | two pieces exactly when there is one "x", around it |
| `Py.Upper` | utils.py:71 | `upper()` keeps the length and upper-cases each ASCII letter |
| `Py.Lookup` | driver_actions.py:189 | `action[k1], action[k2], ...` raises KeyError for the first missing key, otherwise gives the values in order |

## Left out

- `random_delay` (driver_actions.py:16-19) is a no-op step. Random jitter and `time.sleep` have no observable effect on the session in this model.
- WebDriverWait polling and the expected conditions are one abstract `Wait` call. The call either gives an element or raises, for example `Timeout`. Wall-clock time is not modelled.
- Selenium, ActionChains and every `driver.*` property or call are answered by the oracle. Their real behaviour is not modelled. This includes `switch_to.alert()`, which calls the alert property. Its failure is covered by the oracle's reply to `SwitchToAlert`.
- `logging` output, `print`, and the timing prints of `snapup` are I/O and have no effect on the model.
- `json.loads`, `json.load` and `open` are not modelled. Each model starts from the decoded values: `seq<Dict>` for the actions and `Value` for the `.side` document.
- Numbers in decoded JSON are integers only. Floats are not modelled.
- The notification sender in notify.py is left out. A notification is a `Note` value. HTTP delivery and its own failures are not modelled.
- Start-up code is left out: `load_env_vars`, `get_chrome_options`, the environment, dotenv and Chrome-option code of main2.py:13-38, the virtual display, and the `__main__` blocks. side.py is left out too.
- `handle_alert` (main2.py:230-235) is never called by the engine and is not modelled.
- `Engine.StepSpec` works on a copy of the action: the runner writes the normalised locator type back into the action dictionary, but the dictionaries are created by `json.loads` inside the runner (driver_actions.py:183), so no caller can observe that write-back.
- `Engine.Execute` does not model dictionary key order: `Dict` is a `map`, which has no order. Key order does not affect keyword binding.
- `Engine.IsAttribute` knows the class's own methods and its `driver` field. Attributes inherited from `object` (dunder names) are not modelled. An action named after one of them is treated as unknown and skipped.
- ByAttr (`Locators.ByAttr`) is weaker than `getattr(By, v)`: `By`'s dunder attributes such as `__doc__` or `__module__` also exist, but the model gives AttributeError for them. In driver_actions.py the resolver rejects such names first (line 186), so only main2.py's wait, finders and located branches can meet them (main2.py:51, 97, 102, 181-224). What Selenium would do with such a strategy is not modelled.
- `Engine.Invoke` does not follow the nested call when `execute` or `execute_actions_from_json` is invoked through `execute`. It returns a marker exception instead.
- `Py.Upper` upper-cases ASCII letters only. Python's Unicode case mapping is not modelled.
