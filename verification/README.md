# Ghost Shell: models and proofs

Ghost Shell drives browser profiles from scripts. This project models the parts of it that
are state machines, interpreters or data transformations, in Dafny, and proves what they
promise.

- **Flow language** (`Flow`, `FlowSemantics`, `FlowEngine`, `FlowSteps`, `FlowLeaves`,
  `FlowPaths`, `FlowKinds`, `FlowLaws`, `OwnDomains`, `FlowConditions`, `FlowVariables`,
  `FlowTemplates`, `Templates`). The interpreter of `ghost_shell/actions/runner.py` encodes `break`,
  `continue` and abort in mutable flags on nested contexts. `FlowEngine` has those contexts as
  objects that share one variable store, one flag store and one effect log. It is proved
  equal to `FlowSemantics`, in which a step list simply ends in one of four outcomes.
  Random draws, shuffles, handlers and the browser are one `World`: arbitrary functions of
  the effects so far. All results hold for every world. The verdicts of conditions are
  recorded among the effects so that laws about runs can speak of them. `FlowSteps`,
  `FlowLeaves`, `FlowPaths` and `FlowKinds` say what each type of step, each path and each
  kind of condition does, from the literal texts a script author writes.
- **Older engines** (`LegacyLoops`, `LegacyEngine`, `LoopNests`, `ScriptLoops`, `Pipeline`). The main-script
  engine writes loop variables into nested steps as text. It is related to the flow engine
  through an independent reference meaning of loop nests. `Pipeline` is the per-ad pipeline.
- **Ads** (`AdFilter`, `Urls`, `UrlLaws`, `Redirects`, `RedirectLayers`). The parser's filtering loop
  and the unwrapping of redirect URLs, with what they guarantee to every script.
- **Browser lifecycle** (`ProfileLock`, `SplitGuard`, `LockHeartbeat`, `Watchdog`,
  `SplitPause`, `StartLadder`). Transition systems for the lock file, the heartbeat thread,
  the hang watchdog and the start ladder, with the objects' own methods refining them.
  `SplitGuard` and `SplitPause` take two operations apart that the others treat as one step.
- **Accounts** (`Accounts`, `VaultEngine`, `Base32`, `Totp`, `Digits`). The encrypted vault
  refines a plain store over all histories; one-time codes follow RFC 4226, RFC 6238 and
  RFC 4648.
- **Profile data** (`Merge`, `HistoryImport`). The Preferences merge and the history import.

`dafny verify dfyconfig.toml` checks everything.

## What the code does differently from what is said about it

- Brace-free values are not enough for eager substitution to be simultaneous, nor for
  interpolation to be idempotent: a stray brace in the template (`{{x}}`) captures the
  value put next to it. `EagerIsSimultaneousIff` and `InterpolationIsIdempotentIff` give the
  exact condition on the template.
- A heartbeat dated F seconds ahead keeps a profile blocked for F + 180 s. The comment at
  runtime.py:93-119 says the clamp to zero makes it age out in 180 s; the clamp has no
  effect (`BlockedExactlyUntil`).
- The lock alone does not exclude. With guard and write as one step, two processes hold the
  profile exactly after a start beside an unguarded holder: one whose heartbeat is 180 s old,
  or one that went on without a lock because its write failed, while no other live lock
  blocks the profile (`ExclusionIff`, `UnwrittenLockAdmitsNext`). When a displaced holder
  closes, it removes its successor's lock and a third process gets in
  (`DisplacedHolderOpensTheDoor`).
- The guard and the write are separate steps, and two processes can pass the guard before
  either writes (`GuardsBeforeWritesRace`). `CleanWritesExclude` and `SplitExclusionIff` say
  when the split guard is enough.
- The two-second join can end before the heartbeat thread has written, and the thread then
  brings the lock back after it was removed (`JoinTimeoutResurrects`; the exact condition is
  `LockComesBackIff`).
- Setting the pause event before resetting the count leaves a gap in which a paused browser
  can be killed, exactly by a third failing probe (`PausedKillIff`, `PauseIsSafeIff`). A pause
  lasts until the first resume, whoever calls it (`PauseHoldsIff`).
- An exception that is none of the three Selenium classes leaves `start()` without cleanup,
  and a lock file that cannot be removed stays (`RaisedIsBareIff`, `StuckIff`). It even
  outlives a later cleanup that nothing refuses, when a failed lock write in between has
  cleared the path (`FailedWriteOrphansTheLock`).
- Steps with `only_on_my_domain` are dead on parsed ads, because the parser drops own domains
  before, as long as every domain setting, once stripped, is under one of the settings as
  they are (`OwnOnlyIsDeadIff`, `OwnOnlyStepsNeverRun`). With a setting such as `" own.com"`
  the filter lets the ad through and the gate takes it for an own one. The ad's domain has no
  blanks around it; over domains that may have some, the steps are dead only without any
  setting (`OwnOnlyIsDeadOnAllIff`).
- On parsed ads a test for own ads is `never` and one for external ads `always`, at any depth
  of a condition (`FoldKeepsVerdict`), so no branch is taken that those tests bar
  (`BarredBranchNeverTaken`).
- A variable name may end in a line feed, because the pattern's `$` accepts one. The reserved
  names are then not recognised, and no template placeholder can spell the variable
  (`LineFeedPassesReserved`, `SavedVariableReadsBack`).
- In a loop within loops of the main script `{index}` and `{total}` are those of the outermost
  loop; the inner ones cannot be read (`OuterCountersWin`).
- A redirect that carries both `adurl` and `dest_url` leads where `adurl` does
  (`TargetInOrder`). The comment at main.py:750-752 calls `dest_url` the canonical one.
- `update_account` drops all secrets of an item when none of them is truthy
  (`FalsySecretIsLost`, `UpdateAccountFramesIff`).
- A condition that compares a missing variable with the text None holds
  (`MissingEqualsNone`).
- `deep_merge` is not associative (`GroupingMatters`); `AssociativeIff` says when it is.
- The history import's merge branch needs a UNIQUE url column, and the schema the importer
  creates has none, so importing again duplicates rows (`ReimportDuplicatesIff`).
- A malformed probability or type of an enabled step leaves `run_pipeline` as an exception,
  so a pipeline can end without an event for every step (`OneRowPerStep` has the exact
  condition).

## Model

| member | source | states |
|---|---|---|
| Templates.TwoPassesAreOne | ghost_shell/actions/runner.py:2659-2681 | on a template without a capturing brace whose own placeholders get brace-free values, substituting by two environments in turn is one substitution in which the first wins |
| Templates.EagerIsSimultaneousIff | ghost_shell/actions/runner.py:2659-2681 | two substitutions equal one simultaneous one for all brace-free outer values if and only if no stray brace of the template can capture a filled placeholder |
| Templates.InterpolationIsIdempotentIff | ghost_shell/actions/runner.py:3718-3744 | interpolating twice equals interpolating once for all brace-free contexts, under exactly the same condition on the template |
| Templates.ScanUnscan | ghost_shell/actions/runner.py:2659-2681 | scanning the spelling of a token list in which no brace opens a placeholder gives the tokens back |
| Templates.NamesGrow | ghost_shell/actions/runner.py:2659-2681 | which texts the two patterns take for names, character by character |
| FlowEngine.RunFlow | ghost_shell/actions/runner.py:3901-3912 | a whole flag-based run ends with the effects, variables, flags and exception of the structured semantics |
| FlowEngine.ExecSteps | ghost_shell/actions/runner.py:3913-3935 | the step loop, entered with no flag set, equals RunSteps; entered with one, it does nothing; it always terminates |
| FlowEngine.ExecStep | ghost_shell/actions/runner.py:3917-3934 | the enabled and probability gates, then the dispatch on the interpolated step, equal RunStep |
| FlowEngine.ExecSingle | ghost_shell/actions/runner.py:3936-4069 | the dispatch equals DispatchOn; break and continue become flags that stand for those outcomes |
| FlowEngine.ExecHandler | ghost_shell/actions/runner.py:3967-4069 | external steps let exceptions out, bridged ones swallow them unless the step asks for an abort, and own or target ads are gated |
| FlowEngine.FlowIf | ghost_shell/actions/runner.py:4090-4098 | a condition picks a branch, and break, continue and abort pass through |
| FlowEngine.FlowForeach | ghost_shell/actions/runner.py:4198-4237 | the loop equals RunForeach; it returns with no flag set |
| FlowEngine.ForeachLoop | ghost_shell/actions/runner.py:4221-4237 | one fresh child context per item over shared variables; break and continue are absorbed, abort is passed on |
| FlowEngine.FlowForeachAd | ghost_shell/actions/runner.py:4100-4159 | the ad loop equals RunForeachAd, with shuffle and limit |
| FlowEngine.AdLoop | ghost_shell/actions/runner.py:4114-4158 | one child context per ad of the entry snapshot, with the scan pause between ads |
| FlowEngine.FlowSearchQuery | ghost_shell/actions/runner.py:4282-4377 | the query falls back to the loop item and then the last query; ads, flags and the per-ad runner follow a search |
| FlowEngine.FlowCatchAds | ghost_shell/actions/runner.py:4248-4280 | parsed ads replace the context's, and the page flags are refreshed |
| FlowEngine.FlowSaveVar | ghost_shell/actions/runner.py:4408-4428 | only names that match the pattern, with or without a final line feed, and are not reserved are written, with capped values |
| FlowEngine.FlowExtractText | ghost_shell/actions/runner.py:4433-4468 | extracted text is written under a name that save_var would accept, and nothing happens without a driver or selector |
| FlowEngine.RunContext.Child | ghost_shell/actions/runner.py:3588-3635 | a child context aliases its parent's stores, copies its scope and starts with clean flags |
| FlowSteps.BreakStep | ghost_shell/actions/runner.py:3949-3951 | an enabled step whose type is the text "break" and that draws no coin ends in Break and leaves scope and shared state as they were |
| FlowSteps.ContinueStep | ghost_shell/actions/runner.py:3952-3954 | so does "continue" in Continue |
| FlowSteps.BreakEndsLoop | ghost_shell/actions/runner.py:4221-4237 | a "foreach" or "loop" whose body is some steps, a break and more steps does exactly the first steps for the first item, when they end normally there |
| FlowSteps.ContinueSkipsRest | ghost_shell/actions/runner.py:4221-4237 | with a continue in that place it does the first steps for every item, in order, and never the rest |
| FlowSteps.LoopDoesEachItem | ghost_shell/actions/runner.py:4221-4237 | with neither it does its whole body for every item |
| FlowSteps.BreakEndsAdLoop | ghost_shell/actions/runner.py:4114-4158 | a "foreach_ad" is ended by a break in its body in the same way |
| FlowSteps.ContinueSkipsRestOfAd | ghost_shell/actions/runner.py:4114-4158 | and goes on with the next ad at a continue; the ads are the first of the scope up to the limit, with pauses between them |
| FlowSteps.LoopDoesEachAd | ghost_shell/actions/runner.py:4114-4158 | with neither it does its whole body for each of these ads |
| FlowSteps.IfStep | ghost_shell/actions/runner.py:4090-4098 | an "if" records its verdict, runs its then-steps as written when the condition holds and its else-steps when not, and ends as they end |
| FlowSteps.CoinDecides | ghost_shell/actions/runner.py:3917-3934 | a step with a probability below one draws one coin and is dispatched unless the draw is above it |
| FlowSteps.DisabledDoesNothing | ghost_shell/actions/runner.py:3919-3920 | a disabled step does nothing, whatever else it says |
| FlowSteps.MalformedStepEnds | ghost_shell/actions/runner.py:3917-3938 | a step that is no dict, and an enabled one whose probability is no number or whose type is a list or dict, ends the run |
| FlowSteps.UntypedStep | ghost_shell/actions/runner.py:3936-3938 | a step without a type goes to the handler called unknown |
| FlowSteps.MalformedBodyEnds | ghost_shell/actions/runner.py:3913-3935 | nested steps that are no list end the run |
| FlowSteps.MalformedItemVarEnds | ghost_shell/actions/runner.py:4217-4229 | a list or dict as the name of the items ends a loop that has items |
| FlowSteps.MalformedAdLoopEnds | ghost_shell/actions/runner.py:4130-4158 | a pause whose bounds are no numbers and an ad that is no dict end the run |
| FlowSteps.ShuffledLoop | ghost_shell/actions/runner.py:4215-4216 | with shuffle a loop goes over its items in the order of one draw |
| FlowSteps.ShuffledAdLoop | ghost_shell/actions/runner.py:4119-4125 | so does a loop over ads, and the limit counts in that order |
| FlowLeaves.SaveStep | ghost_shell/actions/runner.py:4408-4428 | "save_var" writes the interpolated, capped value under an unreserved identifier and nothing under a reserved name or another text |
| FlowLeaves.ExtractStep | ghost_shell/actions/runner.py:4433-4468 | "extract_text" reads the page by its selector and keeps the capped text under save_as or "extracted" |
| FlowLeaves.CatchStep | ghost_shell/actions/runner.py:4248-4280 | "catch_ads" parses for its own query or the last one, and takes the page and its flags |
| FlowLeaves.SearchStep | ghost_shell/actions/runner.py:4282-4377 | "search_query" searches for its own query, else the loop's item, else the last query, takes the page, and with auto_foreach visits its ads until one raises |
| FlowLeaves.HandlerStep | ghost_shell/actions/runner.py:3967-4069 | every other type is handed over once, or not at all where the gate, a missing ad or an unknown type stops it; which exceptions end the run |
| FlowPaths.AdPath | ghost_shell/actions/runner.py:3637-3694 | a path behind "ad" reads the ad at hand at any depth, and nothing without one |
| FlowPaths.AdsPath | ghost_shell/actions/runner.py:3637-3694 | one behind "ads" reads the ad with that index, a negative one counting from the end |
| FlowPaths.VariablePath | ghost_shell/actions/runner.py:3637-3694 | a path below a variable leads into its value in either spelling |
| FlowPaths.PlainHeads | ghost_shell/actions/runner.py:3637-3694 | what "item", "query" and "profile" read |
| FlowPaths.WholeAds | ghost_shell/actions/runner.py:3646-3652 | what "ad" and "ads" themselves read |
| FlowPaths.CountPath | ghost_shell/actions/runner.py:3649-3651 | the path to the number of ads |
| FlowPaths.FlagPath | ghost_shell/actions/runner.py:3668-3669 | a path behind "flag" reads a flag of the page |
| FlowPaths.PlaceholderShows | ghost_shell/actions/runner.py:3718-3744 | a placeholder shows nothing for a path that leads nowhere and otherwise what str() makes of the value |
| FlowPaths.OnlyBodiesStayRaw | ghost_shell/actions/runner.py:3718-3744 | exactly what stands under steps, then_steps and else_steps is left raw |
| FlowPaths.LimitTakes | ghost_shell/actions/runner.py:4114-4158 | a limit takes that many ads from the front, a negative one leaves that many out at the end, and a falsy or malformed one takes all |
| FlowPaths.IntTruncates | ghost_shell/actions/runner.py:4121-4125 | int() of a number drops its fraction on either side of zero |
| FlowPaths.NumbersOfValues | ghost_shell/actions/runner.py:3921-3922 | which values float() and int() take, and what they make of them |
| Json.FalsyIff | ghost_shell/actions/runner.py:3919-3920 | which values count as false |
| Strings.LowerLetters | ghost_shell/actions/runner.py:4028-4033 | lower-casing, letter by letter |
| Strings.LineEndIff | ghost_shell/actions/runner.py:4207-4211 | the ten characters that end a line |
| FlowPaths.CapKeeps | ghost_shell/actions/runner.py:4389-4406 | a stored text is cut after 102400 characters and marked, texts in a list likewise, other values are kept |
| FlowPaths.ItemsOfText | ghost_shell/actions/runner.py:4198-4220 | a loop goes over a text line by line |
| FlowPaths.ItemsOfList | ghost_shell/actions/runner.py:4198-4220 | and over a list, given or named by a placeholder |
| FlowKinds.CaughtPageIsSeen | ghost_shell/actions/runner.py:4248-4280 | after a page was caught ads_found holds exactly if it had ads and captcha_present exactly if the browser shows a captcha |
| FlowKinds.Constants | ghost_shell/actions/runner.py:3764-3771 | always and never |
| FlowKinds.AdsCounted | ghost_shell/actions/runner.py:3772-3824 | at least so many ads, one by default |
| FlowKinds.ElementExists | ghost_shell/actions/runner.py:3834-3865 | whether the page has the element, false without a browser or a selector |
| FlowKinds.UrlContains | ghost_shell/actions/runner.py:3829-3838 | whether some piece of the page's URL is the given text, which is not empty |
| FlowKinds.VarEquals | ghost_shell/actions/runner.py:3850-3887 | whether a variable or other path reads as the given text |
| FlowKinds.MissingEqualsNone | ghost_shell/actions/runner.py:3868-3871 | a variable that is not there equals the text None |
| FlowKinds.VarContains | ghost_shell/actions/runner.py:3872-3875 | whether some piece of a variable is the given text |
| FlowKinds.VarMatches | ghost_shell/actions/runner.py:3876-3884 | whether a non-empty pattern is found in a variable |
| FlowKinds.VarEmpty | ghost_shell/actions/runner.py:3885-3886 | whether a variable is falsy |
| FlowKinds.PathMustBeText | ghost_shell/actions/runner.py:3885-3886 | a condition about no path is about nothing, and one about something that is no text raises |
| FlowKinds.UnknownNeverHolds | ghost_shell/actions/runner.py:3887-3896 | a kind nobody knows never holds |
| FlowKinds.AdIsTargetOrMine | ghost_shell/actions/runner.py:3797-3814 | an ad is the user's exactly if its domain is one of the settings or a subdomain of one, in any case of letters |
| FlowLaws.StepsKeep | ghost_shell/actions/runner.py:3913-3935 | running any list only appends effects, keeps the ad and the item of the scope, ends at an escaping exception, respects the gates and keeps the scope free of own-domain ads |
| FlowLaws.ForeachKeeps | ghost_shell/actions/runner.py:4198-4237 | a foreach gives its whole scope back unchanged and ends normally or in an abort |
| FlowLaws.ForeachAdKeeps | ghost_shell/actions/runner.py:4100-4159 | so does a foreach_ad |
| FlowLaws.AdLoopIterates | ghost_shell/actions/runner.py:4114-4158 | the iterations are a prefix of the entry snapshot of ads, each from the loop's own scope, whatever an earlier one searched; only break and abort cut it short |
| FlowLaws.StepsAppend | ghost_shell/actions/runner.py:3913-3935 | running a concatenation is running its parts in turn, the second only after a normal end of the first |
| FlowLaws.RunIsLawful | ghost_shell/actions/runner.py:3913-3935 | any property of all parsed pages holds of the scopes that handlers and conditions of a run see; gates are respected and verdicts are what their conditions evaluate to |
| FlowLaws.NoActionOnOwnDomain | ghost_shell/actions/runner.py:4021-4046 | in every run over parsed ads no handler and no per-ad runner sees an own-domain ad, and every per-ad action ran past its gate |
| FlowLaws.AbortEndsTheRun | ghost_shell/actions/runner.py:4047-4054 | an exception that escapes a handler is the last effect of the run |
| OwnDomains.MineIff | ghost_shell/actions/runner.py:4021-4040 | the gate takes an ad for the user's exactly if its stripped domain is a stripped setting or a subdomain of one |
| OwnDomains.GateOpensIff | ghost_shell/actions/runner.py:4021-4046 | the gate lets a step through exactly without an ad or when none of its four flags speaks against it |
| OwnDomains.OwnOnlyIsDeadIff | ghost_shell/actions/runner.py:4021-4046 | on ads that pass the parser's filter and whose domain has no blanks around it the gate skips every step flagged only_on_my_domain if and only if every setting, once stripped, is under one of the settings as they are |
| OwnDomains.OwnOnlyIsDeadOnAllIff | ghost_shell/actions/runner.py:4021-4046 | on all ads that pass the filter it does so if and only if there are no settings |
| OwnDomains.TrimmedStripHome | ghost_shell/actions/runner.py:4021-4046 | settings without surrounding blanks meet the first condition |
| OwnDomains.OwnOnlyStepsNeverRun | ghost_shell/actions/runner.py:4041-4045 | under that condition no run over parsed ads carries out a step flagged only_on_my_domain on an ad whose domain has no blanks around it |
| FlowTemplates.InterpolateKeepsBodies | ghost_shell/actions/runner.py:3718-3744 | nested step lists of a step come out of its interpolation as they went in |
| FlowTemplates.InterpolationSkipsNested | ghost_shell/actions/runner.py:3718-3744 | at every depth, behind dict keys and list positions, what stands under a nested-steps key is left alone |
| FlowTemplates.InterpolationIsIdempotent | ghost_shell/actions/runner.py:3718-3744 | interpolating a whole value twice is interpolating it once, when its texts capture nothing and the placeholders that occur in them resolve to brace-free texts |
| FlowTemplates.ConditionIsInterpolatedOnce | ghost_shell/actions/runner.py:3756-3896 | under the same condition on the placeholders that occur in it, a condition that the step loop has interpolated gives the same verdict as if its evaluation did not interpolate again |
| FlowConditions.NegationFlips | ghost_shell/actions/runner.py:3756-3763 | turning the negate switch over turns the verdict over for every kind of condition, and an evaluation that raises still raises |
| FlowConditions.DeMorgan | ghost_shell/actions/runner.py:3889-3893 | a negated `and` is the `or` of the negated sub-conditions and the other way round, with the same exceptions |
| FlowConditions.UntilIsQuantifier | ghost_shell/actions/runner.py:3889-3893 | over sub-conditions that do not raise, `or` is "some holds" and `and` is "none fails" |
| FlowConditions.AdClasses | ghost_shell/actions/runner.py:3772-3814 | external is the complement of mine for an ad with a domain, competitor is external and no target, and an ad without a domain is neither |
| FlowConditions.CompetitorBranchSkipsTargets | ghost_shell/actions/runner.py:3780-3795 | under a competitor condition every action reserved for targets is skipped |
| FlowConditions.OwnAdBranchNeverTaken | ghost_shell/actions/runner.py:3797-3814 | in every run over parsed ads, at every condition evaluated with an ad at hand, an own-ad condition is false and an external-ad one true, up to negation |
| FlowConditions.FoldKeepsVerdict | ghost_shell/actions/runner.py:3756-3896 | on a parsed ad every condition has the verdict, or the exception, that it has with each own-ad test replaced by never and each external-ad test by always, at every depth of and and or |
| FlowConditions.BarredBranchNeverTaken | ghost_shell/actions/runner.py:4090-4098 | in every run over parsed ads, with an ad at hand, no if takes a branch that its own-ad and external-ad tests and constants bar through any nesting of and, or and negate |
| FlowVariables.VariablePaths | ghost_shell/actions/runner.py:3637-3694 | an accepted name and its `var.` path read the same variable from any scope |
| FlowVariables.SavedVariableReadsBack | ghost_shell/actions/runner.py:4408-4428 | what save_var stored is what later steps read by path, whatever their scope, and templates read it exactly when the name has no final line feed |
| FlowVariables.LineFeedPassesReserved | ghost_shell/actions/runner.py:4371-4387 | every reserved name is refused as it is and accepted with a final line feed |
| LegacyEngine.RunMainScript | ghost_shell/actions/runner.py:2777-2822 | the main-script loop equals LegacySteps, and an empty script is reported as not run |
| LegacyEngine.LoopForeach | ghost_shell/actions/runner.py:2682-2763 | `_loop_foreach` on an already substituted step equals LegacyLoop on the step as written |
| LegacyEngine.LoopStep | ghost_shell/actions/runner.py:2739-2763 | gate, substitution, handler lookup, coin and call of one nested step equal LegacyStep |
| LegacyEngine.ScriptStepIsRaw | ghost_shell/actions/runner.py:2793-2815 | a step outside all loops is run as it is written |
| LoopNests.EagerEmitsAll | ghost_shell/actions/runner.py:2682-2763 | the textual engine performs the actions of the reference meaning, in order, behind any earlier effects |
| LoopNests.FlowEmitsAll | ghost_shell/actions/runner.py:4198-4237 | so does the environment-based engine, from any scope, variables and flags |
| LoopNests.EnginesAgree | ghost_shell/actions/runner.py:2682-2763 | on loop nests with distinct free variables around actions with parameters of any shape, enabled or not, bound placeholders and no capturing brace, both engines hand the same instantiated steps to handlers from any starting point, whether loop-level handlers raise or not and whatever variables other than the loops' they write |
| LoopNests.EagerValue | ghost_shell/actions/runner.py:2659-2681 | under any number of enclosing substitutions a value of any shape is its instance under the joint bindings |
| LoopNests.FlowValue | ghost_shell/actions/runner.py:3718-3744 | interpolation in a context that holds those bindings gives the same instance |
| LoopNests.SubstEachText | ghost_shell/actions/runner.py:2737-2744 | a text under any number of nested loops' substitutions is filled once, the outermost binding winning |
| ScriptLoops.IterationsCount | ghost_shell/actions/runner.py:2682-2763 | the iterations of a loop over n items hand the handler 1 to n for {index} and n for {total} |
| ScriptLoops.OuterCountersWin | ghost_shell/actions/runner.py:2737-2744 | under several loops both counters are the outermost one's |
| ScriptLoops.LoopGoesOver | ghost_shell/actions/runner.py:2682-2736 | a loop goes over its items, or the queries where it has none and asks for them, shuffled unless told not to, under "item" by default |
| ScriptLoops.LoopOverOthers | ghost_shell/actions/runner.py:2682-2736 | a text in place of a list is gone over character by character, a dict by its keys, and anything else raises |
| ScriptLoops.NameOfItems | ghost_shell/actions/runner.py:2682-2736 | which name the items get, and which cannot be one |
| ScriptLoops.ActionIsDrawn | ghost_shell/actions/runner.py:2793-2815 | a known enabled action draws one coin whatever its probability, runs unless the draw is above it, and its exception is kept unless it asks for an abort |
| Pipeline.RunPipeline | ghost_shell/actions/runner.py:2848-2946 | the loop equals PipelineRun: logged events, effects, and whether an exception left it |
| Pipeline.OneRowPerStep | ghost_shell/actions/runner.py:2895-2946 | logged events match the steps from the front, and there is one for every step if and only if no step is malformed; failing handlers suppress nothing |
| Pipeline.LoggedRow | ghost_shell/actions/runner.py:2895-2946 | which row a well-formed step is logged with |
| Pipeline.UntypedRow | ghost_shell/actions/runner.py:2895-2910 | a step without a type is logged as unknown |
| Pipeline.ReasonsInOrder | ghost_shell/actions/runner.py:2911-2924 | the logged reason is the first of the four filters that applies |
| Pipeline.GatesAreOne | ghost_shell/actions/runner.py:4021-4046 | for a non-empty ad the unified filter skips exactly when the pipeline's four filters give a reason |
| Pipeline.UnifiedDecision | ghost_shell/actions/runner.py:3917-3934 | when the unified engine calls the handler of an action, as a condition on flags, coin and gate |
| Pipeline.PipelineDecision | ghost_shell/actions/runner.py:2895-2937 | the pipeline calls it under the same condition, given the same coin |
| Pipeline.GatesAgree | ghost_shell/actions/runner.py:4021-4046 | for a non-empty ad and the same coin the unified engine and the pipeline make the same run/skip decision |
| AdFilter.ParseAds | ghost_shell/main.py:1260-1413 | the ads and drop counters of a page, by the first keepable candidate per domain; a domain has an ad exactly if some candidate is admitted for it |
| AdFilter.VerdictIff | ghost_shell/main.py:1319-1377 | a candidate is admitted if and only if it is not broken, has a domain, contains none of the four Google texts in it and is neither a setting nor a subdomain of one; and which drop counter it meets otherwise |
| AdFilter.PageHasDomainIff | ghost_shell/main.py:1260-1413 | a page has an ad with domain d if and only if some candidate is admitted for d |
| AdFilter.FirstIsShown | ghost_shell/main.py:1379-1403 | each ad shows the query, title, URLs and domain of the first candidate admitted for its domain, and is a target exactly if a target text occurs in the domain |
| AdFilter.DomainOfCandidate | ghost_shell/main.py:1319-1320 | the domain comes from the clean URL, else from the displayed one |
| AdFilter.FilterAds | ghost_shell/main.py:1260-1413 | the loop with its set of seen domains keeps exactly those candidates and tallies the rest |
| AdFilter.NoCandidateIsLost | ghost_shell/main.py:1260-1413 | every counter counts its verdict, and kept + own + internal + no-domain + duplicate + failed is the number of candidates |
| AdFilter.KeptIsForeign | ghost_shell/main.py:1362-1389 | kept ads are on no own domain, on pairwise distinct domains, and each is some first candidate's |
| AdFilter.KeptCoversDomains | ghost_shell/main.py:1362-1389 | every admissible domain on the page is represented among the kept ads |
| AdFilter.FilterProtectsEveryRun | ghost_shell/main.py:1260-1413 | when searches end in this loop, no run hands an own-domain ad to any handler |
| AdFilter.EveryAdWasParsed | ghost_shell/main.py:1260-1413 | at every handler call and condition of a run, the ads in scope are one result of the filtering loop and the ad at hand is an element of one |
| Redirects.ExtractRealUrl | ghost_shell/main.py:733-770 | terminates; the result is no longer than the input and is the input or an http URL |
| Redirects.QueryTarget | ghost_shell/main.py:744-762 | a nested target is strictly shorter than the URL that holds it |
| Redirects.TargetInOrder | ghost_shell/main.py:753-767 | of the ten parameters the first, in this order, whose value decodes to an http URL is the target |
| Redirects.DomainOfUrl | ghost_shell/main.py:773-782 | the domain of scheme://host with any path, query or fragment is the host in lower case without a leading www. |
| Redirects.NoSlashNoDomain | ghost_shell/main.py:773-782 | a text without a slash, such as a bare host, has no domain |
| UrlLaws.UrlParts | ghost_shell/main.py:748 | host and query of a URL put together from scheme, host, path, query and fragment |
| UrlLaws.NoScheme | ghost_shell/main.py:748 | what is no scheme in front of a colon is not cut |
| UrlLaws.BlanksInFront | ghost_shell/main.py:748 | blanks and control characters in front of a URL do not matter |
| UrlLaws.BreaksAnywhere | ghost_shell/main.py:748 | tabs and line breaks anywhere in a URL do not matter |
| UrlLaws.FirstFieldCounts | ghost_shell/main.py:749-758 | of several fields with a name the first that has a value counts |
| UrlLaws.BareFieldIsSkipped | ghost_shell/main.py:749 | a field without an equals sign is none |
| UrlLaws.PlusIsBlank | ghost_shell/main.py:749 | a plus in a field stands for a blank |
| UrlLaws.RedirectsAreFollowed | ghost_shell/main.py:757-770 | a target that is no Google redirect is the destination, and one that is has the destination its own unwrapping leads to |
| UrlLaws.NoTargetNoChange | ghost_shell/main.py:768-770 | a URL without a target is its own destination |
| RedirectLayers.DecodeQuote | ghost_shell/main.py:744-762 | decoding undoes one quoting of any text, whatever stands behind it in the same run of bytes |
| RedirectLayers.DecodeLayers | ghost_shell/main.py:744-762 | one decoding takes one quoting off every part of a partly decoded nest |
| RedirectLayers.UnwrapLayers | ghost_shell/main.py:733-770 | any nest whose quoting depth rises by at most one per layer unwraps to its destination |
| RedirectLayers.ExtractUnwraps | ghost_shell/main.py:733-770 | extraction returns d, ASCII or not, from any n >= 1 quoted google.com/url?q= layers around d |
| ProfileLock.GsLock.Write | ghost_shell/browser/runtime.py:146-159 | writes a lock naming the process with both stamps now, or leaves the file on an error |
| ProfileLock.GsLock.Heartbeat | ghost_shell/browser/runtime.py:162-183 | refreshes only its own lock, keeping pid and acquisition time |
| ProfileLock.ExclusionIff | ghost_shell/browser/runtime.py:518-531 | over any processes, starts with written or failing locks, heartbeats, crashes, closes and ticks there is at most one holder at every point if and only if no start takes place beside a living holder whose heartbeat is 180 s old, or that has no lock while no other live lock blocks |
| ProfileLock.MutualExclusion | ghost_shell/browser/runtime.py:58-183 | with written locks and timely heartbeats at most one process holds the profile and the lock file names it, guard and write being one step |
| ProfileLock.WrittenLockBlocksExactly | ghost_shell/browser/runtime.py:146-159 | from a free profile a start with a written lock refuses every other start if and only if less than 180 s, minus the part of a second its timestamp drops, have passed, while its process lives |
| ProfileLock.BeatBlocksExactly | ghost_shell/browser/runtime.py:162-183 | so does a heartbeat of the process that the lock names |
| ProfileLock.WrittenLockSays | ghost_shell/browser/runtime.py:146-159 | a written lock names its process and, twice, the second it was written in |
| ProfileLock.ForeignBeatIsIdle | ghost_shell/browser/runtime.py:162-183 | a heartbeat of a process the lock does not name changes nothing |
| ProfileLock.PacedRunsAreTimely | ghost_shell/browser/runtime.py:146-183 | written locks and heartbeats at most 179 s apart make a run timely |
| ProfileLock.PacedRunsExclude | ghost_shell/browser/runtime.py:58-183 | so in every such run, from any lock file, at most one process holds the profile and the lock file names it |
| ProfileLock.LeavingTheProfile | ghost_shell/browser/runtime.py:4027-4033 | a close gives the profile up and takes its own lock file along, a crash leaves the file, and neither touches other holders |
| ProfileLock.SpawnedIsBystander | ghost_shell/browser/runtime.py:122-143 | a new process holds nothing and leaves lock and others alone |
| ProfileLock.PlainLockBlocksUntil | ghost_shell/browser/runtime.py:93-143 | a lock without a heartbeat blocks by the age of its file |
| ProfileLock.NoLockAdmits | ghost_shell/browser/runtime.py:58-92 | a file that is missing, unreadable or names no process blocks nobody |
| ProfileLock.BlockedExactlyUntil | ghost_shell/browser/runtime.py:93-143 | a start is blocked if and only if the lock's process lives, looks like ours and the clock is below heartbeat + 180 s |
| ProfileLock.DeadOrSilentHolderYields | ghost_shell/browser/runtime.py:122-143 | after a crash, or 180 s after its last heartbeat, a holder no longer blocks the next start |
| ProfileLock.GuardOpensIffUnguarded | ghost_shell/browser/runtime.py:518-531 | beside a single holder the guard lets a start through exactly when that holder has a lock and was silent for 180 s, or has none and no other live lock blocks |
| ProfileLock.UnwrittenLockAdmitsNext | ghost_shell/browser/runtime.py:1096-1102 | a start whose lock write fails goes on and leaves the profile open to the next start at once |
| ProfileLock.DisplacedHolderOpensTheDoor | ghost_shell/browser/runtime.py:4027-4033 | from every state with a late holder: the next start displaces it, its close removes the successor's lock, and a third process gets in |
| SplitGuard.CleanWritesExclude | ghost_shell/browser/runtime.py:518-531 | with guard and write as separate steps, exclusion holds in every run in which each write's check overlooked no holder and no other process wrote in between |
| SplitGuard.SplitExclusionIff | ghost_shell/browser/runtime.py:518-531 | as long as holders stay, exclusion holds only then |
| SplitGuard.CheckOverlooksIff | ghost_shell/browser/runtime.py:518-531 | a check overlooks a holder exactly when that holder is silent for 180 s, or has no lock and no other live lock blocks |
| SplitGuard.GuardsBeforeWritesRace | ghost_shell/browser/runtime.py:1096-1102 | two checks before two writes, failing or not, end with two holders, from every free state |
| SplitGuard.NoTicketLeft | ghost_shell/browser/runtime.py:518-531 | a crash or a refused check leaves no right to write behind |
| LockHeartbeat.RefreshIsReadThenReplace | ghost_shell/browser/runtime.py:162-183 | read and replace without a step between them are the one-step refresh |
| LockHeartbeat.ExitedStaysOut | ghost_shell/browser/runtime.py:810-835 | an ended thread never writes again and a removed lock stays removed |
| LockHeartbeat.ForeignLockSilencesTheThread | ghost_shell/browser/runtime.py:810-835 | a thread that wakes up to a missing or foreign lock writes in no continuation |
| LockHeartbeat.LockComesBackIff | ghost_shell/browser/runtime.py:837-847 | after stop, join and removal some run brings the lock back if and only if the thread stands between read and replace, which implies that the join timed out |
| LockHeartbeat.JoinTimeoutResurrects | ghost_shell/browser/runtime.py:837-847 | that position is reachable |
| LockHeartbeat.EndedJoinIsSafe | ghost_shell/browser/runtime.py:837-847 | behind a join that saw the thread end the removed lock stays gone in every run without other processes |
| LockHeartbeat.StoppedWaiterLeaves | ghost_shell/browser/runtime.py:810-835 | a waiting thread that was told to stop can only end, and so does one whose refresh meets an OSError |
| LockHeartbeat.RefreshPreservesOwnership | ghost_shell/browser/runtime.py:162-183 | without foreign writes the lock keeps its pid and acquisition time through any number of refreshes |
| Watchdog.Dog.ForceRotateIp | ghost_shell/browser/runtime.py:3124-3196 | whatever the thread does during the rotation, the dog ends up resumed, has not killed because of it and counts at most one failure |
| Watchdog.Dog.WatchdogPause | ghost_shell/browser/runtime.py:2969-2982 | the first pause resets the count, a second does nothing |
| Watchdog.Dog.Record | ghost_shell/browser/runtime.py:2994-3025 | a probe result counts or resets, and the third failure kills |
| Watchdog.KillsIffThreeStrikes | ghost_shell/browser/runtime.py:2994-3025 | in every interleaving a kill has happened if and only if three results failed with no success and no entry into pause between the first and the last |
| Watchdog.NoKillWhilePaused | ghost_shell/browser/runtime.py:2969-3025 | the step that kills is a failing result while not paused |
| Watchdog.ResumeStartsClean | ghost_shell/browser/runtime.py:2969-2993 | at a resume at most one failure is counted |
| Watchdog.PausedThreadIsHarmless | ghost_shell/browser/runtime.py:3158-3179 | any steps of the thread during a pause neither kill nor end the pause |
| SplitPause.PausedKillIff | ghost_shell/browser/runtime.py:2969-2982 | with the two writes of a pause as separate steps, in every interleaving a paused browser is killed if and only if a third failing result lands between them |
| SplitPause.PauseIsSafeIff | ghost_shell/browser/runtime.py:2969-2982 | entering a pause is safe against the thread if and only if there are not two failures recorded and a probe in flight |
| SplitPause.GapIsReachable | ghost_shell/browser/runtime.py:2969-3025 | that moment is reachable |
| SplitPause.SetThenReset | ghost_shell/browser/runtime.py:2969-2982 | the two writes in a row are the one-step pause |
| Watchdog.PauseHoldsIff | ghost_shell/browser/runtime.py:2969-2993 | a pause lasts exactly until the first resume, however often pause is called, and until then nothing kills |
| Watchdog.ResumeExposes | ghost_shell/browser/runtime.py:2994-3025 | once resumed, a waiting thread can go on to kill |
| Watchdog.StoppedThreadIsHarmless | ghost_shell/browser/runtime.py:2994-3025 | once told to stop a thread without a probe in flight kills in no continuation, and its next round ends it |
| StartLadder.Browser.Start | ghost_shell/browser/runtime.py:603-678 | the retry loop equals the ladder Climb, and an active run is refused untouched |
| StartLadder.Browser.CleanupAfterFailedStart | ghost_shell/browser/runtime.py:680-786 | clears driver, forwarder and collector, signals both threads and removes the lock unless the system refuses |
| StartLadder.Browser.Close | ghost_shell/browser/runtime.py:4011-4060 | the lock is released before Chrome is quit, and everything is cleared |
| StartLadder.LadderIsBounded | ghost_shell/browser/runtime.py:603-678 | the launches and quarantines are one of five sequences: at most three launches, only the third without extensions, at most one quarantine, between the second and third |
| StartLadder.CaughtFailureIsSwept | ghost_shell/browser/runtime.py:603-678 | a ladder that ends after a Selenium exception leaves no driver, forwarder or collector and both threads told to stop; the lock file is left if and only if it is stuck and a quarantine that raised has not taken it away |
| StartLadder.EscapedFailureLeaves | ghost_shell/browser/runtime.py:603-678 | a ladder that ends in another exception leaves exactly what its last launch set up; the lock file is left if and only if that launch wrote it or it was stuck before and no quarantine took it away |
| StartLadder.RaisedIsBareIff | ghost_shell/browser/runtime.py:603-678 | so a raising start leaves nothing behind if and only if it ended after a Selenium exception with no stuck lock, or in another exception before anything was set up, with no lock stuck from before |
| StartLadder.RaisedLeaves | ghost_shell/browser/runtime.py:603-678 | the state a raising ladder leaves from any attempt on, for any failures, lock writes, refused removals and quarantine |
| StartLadder.StartedHolds | ghost_shell/browser/runtime.py:603-678 | a start that succeeds holds what its last launch set up, and the threads that launch started run |
| StartLadder.QuarantineTakesTheFile | ghost_shell/browser/runtime.py:655-676 | a quarantine takes at most the lock file along and leaves the object alone |
| StartLadder.CleanupInOrder | ghost_shell/browser/runtime.py:680-786 | a cleanup quits the driver first and stops the heartbeat before it removes the lock |
| StartLadder.StuckIff | ghost_shell/browser/runtime.py:754-760 | behind a cleanup the lock file is there if and only if some launch wrote it, or the start found it, and since then no other write took over, every cleanup was refused or had no path, and no quarantine took it away |
| StartLadder.FailedWriteOrphansTheLock | ghost_shell/browser/runtime.py:1096-1102 | a lock whose removal was refused survives the cleanup of a launch whose own lock write failed, even when nothing refuses that cleanup |
| Accounts.SavedReadsBackIff | ghost_shell/accounts/vault.py:165-187 | a stored item comes back unchanged after any calls that leave it alone, through any locks and unlocks, if and only if the vault is open again under its one master or nothing is secret; otherwise it is refused |
| VaultEngine.Manager.Initialize | ghost_shell/accounts/vault.py:85-108 | refines the plain store's initialise: short passwords and a second call are refused, the key is the verifier's |
| VaultEngine.Manager.Unlock | ghost_shell/accounts/vault.py:110-130 | refines the plain store's unlock; the key in memory is always the key that made the verifier |
| VaultEngine.Manager.Lock | ghost_shell/accounts/vault.py:132-135 | refines the plain store's lock |
| VaultEngine.Manager.EncryptSecrets | ghost_shell/accounts/manager.py:30-38 | drops empty fields, stores nothing for none, fails while locked |
| VaultEngine.Manager.DecryptSecrets | ghost_shell/accounts/manager.py:41-52 | nothing for no ciphertext, failure while locked, otherwise the document |
| VaultEngine.OpenedTexts | ghost_shell/accounts/manager.py:41-52 | what a decrypted text is worth: a dict its entries, another document nothing, an older text the single secret value |
| VaultEngine.Manager.AddItem | ghost_shell/accounts/manager.py:55-66 | refines adding to the plain map |
| VaultEngine.Manager.Update | ghost_shell/accounts/manager.py:69-93 | refines patching the plain map; leaving secrets out differs from clearing them |
| VaultEngine.Manager.UpdateAccount | ghost_shell/accounts/manager.py:156-172 | decrypt, patch and encrypt again refine patching the plain secrets |
| VaultEngine.Manager.GetItemCleartext | ghost_shell/accounts/manager.py:105-113 | reads back what the plain map holds, or fails while locked |
| VaultEngine.Manager.PerformAll | ghost_shell/accounts/manager.py:30-113 | over every history of calls the encrypted store replies like the plain one and stays an encryption of it |
| Accounts.LockedRefusesIff | ghost_shell/accounts/manager.py:30-52 | while locked exactly the calls that read or write a non-empty secret fail, and they change nothing |
| Accounts.LockedHistoryKeepsSecrets | ghost_shell/accounts/manager.py:69-93 | without an unlock an item's secrets can only stay, be cleared, or go with the item |
| Accounts.StepKeepsTidy | ghost_shell/accounts/manager.py:30-38 | no call stores an empty field |
| Accounts.UpdateThenGet | ghost_shell/accounts/manager.py:69-113 | every saved field is read back as it was given, None and empty ones are absent, and nothing else is there |
| Accounts.AddThenGet | ghost_shell/accounts/manager.py:55-66 | a new item gets the next id and reads back in the same way |
| Accounts.UntouchedSecretsStay | ghost_shell/accounts/manager.py:69-93 | patching fields only keeps the secrets, also while locked |
| Accounts.UpdateAccountThenGet | ghost_shell/accounts/manager.py:156-172 | on an open vault the new password and seed are what is read back, None or empty ones are removed, all other secrets and the patched fields are kept, as long as some value is truthy afterwards; otherwise all secrets are gone |
| Accounts.DeletedIsGone | ghost_shell/accounts/manager.py:116-117 | a deleted item is gone and the others stay |
| Accounts.OthersAreUntouched | ghost_shell/accounts/manager.py:55-117 | a call for other items leaves this one as it was |
| Accounts.NothingToWorkOn | ghost_shell/accounts/manager.py:69-117 | calls for an item that is not there change nothing and say so |
| Accounts.OpensWithItsPassword | ghost_shell/accounts/vault.py:85-135 | after a lock exactly the passwords that derive the key open the vault again; a short password makes none |
| Accounts.UpdateAccountFramesIff | ghost_shell/accounts/manager.py:156-172 | all other secrets are kept if and only if some value is truthy after the patch or there are no others |
| Accounts.FalsySecretIsLost | ghost_shell/accounts/manager.py:156-172 | from the empty store on: secrets of which none is truthy are saved and read back, and gone after an update that patches nothing |
| Accounts.MasterIsFixed | ghost_shell/accounts/vault.py:85-130 | after initialisation salt and key never change, and exactly the passwords that derive the key unlock |
| Base32.PaddedDecodes | ghost_shell/accounts/totp.py:20-27 | decoding the padded encoding of any bytes (section 6 of RFC 4648) gives the bytes |
| Base32.SecretDecodes | ghost_shell/accounts/totp.py:20-27 | so does any spelling of it in either case, with spaces or hyphens anywhere, padded or not |
| Base32.PaddingCompletes | ghost_shell/accounts/totp.py:24-26 | the pad arithmetic fills up to a multiple of eight, with a pad count the decoder accepts exactly for lengths 0, 2, 4, 5 and 7 modulo 8 |
| Base32.UnpaddedDecodesIff | ghost_shell/accounts/totp.py:20-27 | an unpadded secret decodes if and only if it is in the alphabet and has a legal length |
| Base32.OddLengthsFail | ghost_shell/accounts/totp.py:20-27 | the decoder takes no text whose length is no multiple of eight |
| Totp.OffsetInRange | ghost_shell/accounts/totp.py:35-36 | the offset is the last byte modulo 16 |
| Totp.TruncationIs31Bits | ghost_shell/accounts/totp.py:35-40 | on at least twenty bytes all indices are in range and the shifts and masks give the big-endian four bytes modulo 2^31 (section 5.3 of RFC 4226) |
| Totp.FilledDecimal | ghost_shell/accounts/totp.py:40 | str and zfill give the decimal digits at exactly the asked width |
| Totp.CodeDenotes | ghost_shell/accounts/totp.py:40 | a code is decimal, denotes the value modulo 10^digits, and has exactly `digits` characters if and only if that is positive |
| Totp.HotpIsTruncatedDigest | ghost_shell/accounts/totp.py:30-40 | the three together, for any keyed digest and counter |
| Totp.PackedCountersDiffer | ghost_shell/accounts/totp.py:33 | no two counters pack to the same eight bytes |
| Totp.RemainingIsFirstChange | ghost_shell/accounts/totp.py:55-58 | t + remaining_seconds is the first later second with another counter, one larger (section 4 of RFC 6238) |
| Totp.CodeHolds | ghost_shell/accounts/totp.py:43-58 | until that second the code stays the same at every instant, whole or not |
| Totp.CodeOfSecret | ghost_shell/accounts/totp.py:43-52 | for any spelling of any key and any instant of window c the code exists, has exactly `digits` decimals and denotes, modulo 10^digits, the 31-bit truncation of the digest under that key of the eight bytes whose big-endian value is c |
| Totp.RemainingLeadsToNextWindow | ghost_shell/accounts/totp.py:55-58 | from any instant of a window, whole or not, the announced seconds lead to the start of the next |
| Totp.TotpExistsIff | ghost_shell/accounts/totp.py:43-52 | when a code exists: decodable secret, time after -1 s, packable counter |
| Totp.NoPeriodNoCode | ghost_shell/accounts/totp.py:43-52 | without a period there is no code |
| Merge.DeepMerge | ghost_shell/browser/runtime.py:1157-1163 | the loop over the new items, in any order, equals Merged |
| Merge.LaunchPrefs | ghost_shell/browser/runtime.py:1148-1173 | an unreadable file or one without an object is replaced |
| Merge.ReadMerged | ghost_shell/browser/runtime.py:1157-1163 | what any path reads in the merged tree, from what it reads in the two trees |
| Merge.NewLeavesRead | ghost_shell/browser/runtime.py:1157-1163 | every leaf of the new tree reads back |
| Merge.UntouchedPathsKept | ghost_shell/browser/runtime.py:1157-1163 | a path the new tree does not touch reads as before |
| Merge.MergedIsUpdateIff | ghost_shell/browser/runtime.py:1157-1163 | the merge is just the new tree if and only if the new tree covers the old |
| Merge.MergeIsIdempotent | ghost_shell/browser/runtime.py:1157-1163 | merging the same settings again changes nothing |
| Merge.AssociativeIff | ghost_shell/browser/runtime.py:1157-1163 | grouping three merges either way agrees if and only if nowhere a dict, a non-dict and a dict that does not cover the first lie over one another |
| Merge.GroupingMatters | ghost_shell/browser/runtime.py:1157-1163 | so the merge is not associative |
| HistoryImport.History.Import | ghost_shell/browser/chrome_import.py:271-345 | filter, url loop and visit loop leave the tables and the count that the functions say |
| HistoryImport.History.ImportUrls | ghost_shell/browser/chrome_import.py:300-325 | insert or merge, row by row, equals PutAll with its id map |
| HistoryImport.History.ImportVisits | ghost_shell/browser/chrome_import.py:327-345 | visits are appended under the mapped ids, the rest skipped |
| HistoryImport.IdsLeadToSameText | ghost_shell/browser/chrome_import.py:300-325 | every kept row is mapped to a destination row with its own URL text; existing rows keep id and text; ids stay unique |
| HistoryImport.VisitsFollowTheirRows | ghost_shell/browser/chrome_import.py:271-345 | each inserted visit has the time, transition, segment and duration of a source visit, missing or zero ones as their defaults, whose row passed the filter, and refers to a row with that row's text |
| HistoryImport.NoVisitIsLost | ghost_shell/browser/chrome_import.py:327-345 | every timed visit of a kept row is inserted, whether its row was inserted or merged |
| HistoryImport.KeptIdsDistinct | ghost_shell/browser/chrome_import.py:271-273 | the filter leaves source ids distinct |
| HistoryImport.VisitCountsAdd | ghost_shell/browser/chrome_import.py:300-325 | the table's visit counts grow by exactly the sum over the kept rows, a missing or zero count being one |
| HistoryImport.NothingMergesWithoutUnique | ghost_shell/browser/chrome_import.py:364-373 | under the schema the importer creates every row is appended under the next id with its own columns, missing or zero ones as their defaults, and none merged |
| HistoryImport.UniqueMergesOrAppends | ghost_shell/browser/chrome_import.py:300-325 | under a UNIQUE column a known text adds its visits to its row and changes nothing else, and a new one is appended |
| HistoryImport.SensitiveIff | ghost_shell/browser/chrome_import.py:570-574 | a URL is dropped as sensitive exactly if some piece of it is a marker in some case of letters |
| HistoryImport.UniqueStaysUnique | ghost_shell/browser/chrome_import.py:314-325 | under a UNIQUE column texts stay unique and the count is the number of new rows |
| HistoryImport.ReimportDuplicatesIff | ghost_shell/browser/chrome_import.py:300-325 | importing any rows with some text a second time leaves each text in one row if and only if the column is UNIQUE |

## Left out

- Selenium, CDP, in-page JavaScript, fingerprints, human imitation, captcha and rotation policy: they are foreign calls or random delays; what they answer is a `World` or a `Plan`.
- `http_request`, extension steps and other handlers: a handler is an arbitrary answer (raises or not, variables written); handlers that change an ad dict in place are not modelled.
- Watchdog heartbeat calls inside the step loops, logging, and the values drawn for scan pauses.
- Aliasing of lists: an in-place shuffle of a list reached through a variable is not written back to that variable.
- LoopNests.EnginesAgree: `search_query` steps, which the flow engine does not hand to a handler; coins and abort flags of the nested steps themselves, and enabled gates that are not literals; step lists inside parameters; shuffled loops, whose draws the engines take from different positions of the tape; rotations with a pause that is not a number, whose exception ends one engine and not the other; loop variables that a handler writes, which only one engine sees.
- Pipeline.GatesAgree: the four filter flags of the step are not texts, lists or dicts, because the unified engine interpolates them and the pipeline does not.
- ProfileLock.PacedRunsExclude: lock writes succeed, living holders beat in time and guard and write are one step, which the code does not ensure; ExclusionIff and SplitGuard say exactly what happens without.
- ProfileLock.DeadOrSilentHolderYields: processes always answer the liveness question; the branch for a missing `psutil` is left out.
- RedirectLayers.ExtractUnwraps: the destination has no ASCII blanks or control characters and no `%`, `+`, `&`, `#`, and each layer quotes what it wraps; UTF-8 is an ideal codec that undoes its own encoding.
- Watchdog.KillsIffThreeStrikes: one generation of the thread, since a restart sets and clears the same event; counting and comparing is one step; a driver that is gone ends the thread like a stop.
- StartLadder.StuckIff: no other process and no heartbeat thread of an earlier launch touches the lock file during the ladder (ProfileLock and LockHeartbeat are about those).
- LockHeartbeat.LockComesBackIff: one generation of the heartbeat thread.
- VaultEngine.Manager.PerformAll: encryption and JSON are ideal (`Vault.Encrypt` states what is assumed of a token); `Vault.reset`, tags, timestamps and status columns are left out.
- Totp.HotpIsTruncatedDigest: the keyed digest is a parameter of at least twenty bytes; `digits` is a natural number and `period` is not negative.
- Merge.DeepMerge: nested dicts are values written back after the recursive call, so sharing of nested dicts between the two trees is not modelled.
- HistoryImport.VisitsFollowTheirRows: the source query, with its cutoff, order and limit, is the list of fetched rows; source ids are a primary key; `from_visit` is left out because it is looked up among URL ids; the marker list is a parameter.
- AdFilter.ParseAds: the page script and the choice of a block's clean URL come with the candidate; a block that raises does so before it is counted; domains are texts.
- Upper and lower case are ASCII only.
- The dashboard, scripts, path discovery, bookmarks and cookie import.
