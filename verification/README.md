# Y_SwiftUIToast presentation core, in Dafny

This project models the core of Y_SwiftUIToast, a SwiftUI "toast" utility. A toast is a short overlay message.

- **Y_ToastConfig** (`config.dfy`, module `ToastConfig`): the immutable request value with its three initializers and its weak `==`.
- **Y_ToastManager** (`manager.dfy`, module `ToastManager`): the single-slot presentation manager. It holds `isPresenting`, `currentConfig` and at most one auto-hide task. `show` replaces the slot, `dismiss` stops presenting and schedules a clear of the config 0.3 s later, and `handleTap` dismisses when the config allows it.
- **Y_Toast** (`facade.dfy`, module `Toast`): the static facade and its presets.
- **Y_ToastView / Y_ToastOverlayView** (`view.dfy`, module `ToastView`): which content variant is drawn, when the full-screen intercept layer and the toast body are on screen, and where taps go.
- `scenarios.dfy` (module `ToastScenarios`) drives a manager through concrete runs.

How the model is built:

- Time is integer milliseconds. The asynchronous pieces of the source become explicit events.
  - An armed auto-hide task is a `Timer`. Its token comes from a generation counter (`epoch`), which every accepted show increments.
  - A delayed clear is a `PendingClear`.
  - The scheduler advances the clock (`AdvanceClock`) only up to the next due event. It delivers `FireTimer(token)` and `FireClear` at their deadlines.
  - Cancelling a task disarms its token. A cancelled task that wakes up does nothing, so cancellation always wins.
- The manager is a class, `ToastManager.Manager`, whose fields are updated in place. Each method is proved equal to a pure step function over a `ManagerState` value (`ShowStep`, `DismissStep`, `TapStep`, `TimerStep`, `ClearStep`, `TickStep`).
- `Run` replays a sequence of events, so that properties of whole runs can be stated as lemmas.
- The shared singleton becomes a `Manager` object passed to the facade methods.
- View-building closures become opaque `ViewToken`s.

## Model

| member | source | states |
|---|---|---|
| `ToastConfig.WithImage` | Sources/Y_SwiftUIToast/Y_ToastConfig.swift:44-58 | stores text, image, flags and duration; leaves both closure slots empty; the result is well formed |
| `ToastConfig.WithCustomImage` | Sources/Y_SwiftUIToast/Y_ToastConfig.swift:61-75 | stores text and custom image; image and custom content are empty; well formed |
| `ToastConfig.WithCustomContent` | Sources/Y_SwiftUIToast/Y_ToastConfig.swift:78-91 | text, image and custom image are empty; custom content is present; well formed |
| `ToastConfig.WellFormedIffConstructible` | Sources/Y_SwiftUIToast/Y_ToastConfig.swift:44-91 | a config is well formed exactly when one of the three initializers can build it |
| `ToastConfig.WellFormedContentExclusive` | Sources/Y_SwiftUIToast/Y_ToastConfig.swift:52-53 | no initializer fills more than one of image, custom image and custom content |
| `ToastConfig.ImageEquals` | Sources/Y_SwiftUIToast/Y_ToastConfig.swift:11-18 | the synthesized image equality holds exactly when the two images are the same value |
| `ToastConfig.OptionalImageEquals` | Sources/Y_SwiftUIToast/Y_ToastConfig.swift:96 | equality of optional images holds exactly when both are nil or both hold the same image |
| `ToastConfig.Equals` | Sources/Y_SwiftUIToast/Y_ToastConfig.swift:94-103 | structurally equal configs are `==`; `==` configs have the same text, image, flags and duration |
| `ToastConfig.ImageEqualsIsStructural` | Sources/Y_SwiftUIToast/Y_ToastConfig.swift:11-18 | image equality holds iff the case and the payload string agree |
| `ToastConfig.EqualsIffSameErasure` | Sources/Y_SwiftUIToast/Y_ToastConfig.swift:94-103 | `==` holds iff the configs agree once each closure is replaced by a presence flag |
| `ToastConfig.EqualsIsEquivalence` | Sources/Y_SwiftUIToast/Y_ToastConfig.swift:94-103 | `==` is reflexive, symmetric and transitive |
| `ToastConfig.EqualsIgnoresClosureIdentity` | Sources/Y_SwiftUIToast/Y_ToastConfig.swift:61-102 | two configs built by the custom-image initializer, or by the custom-content initializer, from different closures are `==`, though they are different values |
| `ToastManager.Install` | Sources/Y_SwiftUIToast/Y_ToastManager.swift:110-136 | installs the config and presents it under a new generation; a timer due duration ms later is armed iff duration > 0; clock and pending clears unchanged |
| `ToastManager.ShowStep` | Sources/Y_SwiftUIToast/Y_ToastManager.swift:29-107 | an empty-text show is the identity; any other show presents its own config and leaves a timer armed iff duration > 0 |
| `ToastManager.DismissStep` | Sources/Y_SwiftUIToast/Y_ToastManager.swift:139-154 | stops presenting, disarms the timer, keeps the config, and appends one clear due 300 ms later to the pending ones |
| `ToastManager.TapStep` | Sources/Y_SwiftUIToast/Y_ToastManager.swift:157-165 | is either nothing or a dismiss, and a dismiss exactly when the config exists and is tap-removable |
| `ToastManager.TimerStep` | Sources/Y_SwiftUIToast/Y_ToastManager.swift:117-129 | is either nothing or a dismiss, and a dismiss exactly when the waking task's token is the armed one |
| `ToastManager.ClearStep` | Sources/Y_SwiftUIToast/Y_ToastManager.swift:151-153 | empties the slot and consumes the oldest pending clear, leaving the flag and the timer alone |
| `ToastManager.ConfigOf` | Sources/Y_SwiftUIToast/Y_ToastManager.swift:43-103 | the config a show builds is well formed and carries the call's flags and duration; its text and its image, custom image or custom content are the call's, and the other content slots are empty |
| `ToastManager.RejectedShowIsNoOp` | Sources/Y_SwiftUIToast/Y_ToastManager.swift:36 | a text show with empty text changes nothing, including the armed timer; a custom-content show is never rejected and always presents its own config |
| `ToastManager.ShowInstalls` | Sources/Y_SwiftUIToast/Y_ToastManager.swift:110-135 | an accepted show installs its config and presents it whatever the prior state; a timer is armed iff duration > 0, due duration ms later |
| `ToastManager.ShowCancelsEarlierTimers` | Sources/Y_SwiftUIToast/Y_ToastManager.swift:39-41 | right after an accepted show, the wake-up of any timer armed before it does nothing |
| `ToastManager.ShownWithoutTimerStays` | Sources/Y_SwiftUIToast/Y_ToastManager.swift:39-41 | a toast shown with duration <= 0 (the default of all three overloads) stays presented with its config, and no timer is armed, through any time passing and any earlier timer waking, while no clear of an earlier dismiss is pending; with the guarded clear even if one is |
| `ToastManager.ExtraDismissStompsReshow` | Sources/Y_SwiftUIToast/Y_ToastManager.swift:139-153 | as written, one dismiss and its clear leave a later show's config alone, but a second dismiss leaves a further clear that then stomps it |
| `ToastManager.DismissProperties` | Sources/Y_SwiftUIToast/Y_ToastManager.swift:139-153 | dismiss disarms the timer, stops presenting, keeps the config and schedules one clear 300 ms ahead; a second dismiss, or one when not presenting, leaves the same isPresenting, config and timer as one dismiss, plus one more pending clear |
| `ToastManager.ConfigClearedAfterGrace` | Sources/Y_SwiftUIToast/Y_ToastManager.swift:145-153 | with no further calls, the config survives a dismiss until 300 ms later, while the hiding animation runs, and is gone after that |
| `ToastManager.TapIsDismissOrNothing` | Sources/Y_SwiftUIToast/Y_ToastManager.swift:157-165 | handleTap is dismiss when the config exists and is tap-removable, otherwise nothing; isPresenting plays no part |
| `ToastManager.TimerFiresOnce` | Sources/Y_SwiftUIToast/Y_ToastManager.swift:117-129 | the armed timer's wake-up is dismiss; any other token's wake-up is nothing; a second wake-up does nothing more |
| `ToastManager.ClearStompsReshow` | Sources/Y_SwiftUIToast/Y_ToastManager.swift:151-153 | as written, a show issued between a dismiss and its clear ends presenting with no config |
| `ToastManager.GuardedClearKeepsReshow` | Sources/Y_SwiftUIToast/Y_ToastManager.swift:151-153 | with the guarded clear, the same show keeps its config |
| `ToastManager.StepKeepsInv` | Sources/Y_SwiftUIToast/Y_ToastManager.swift:110-153 | every operation and event keeps the manager invariant |
| `ToastManager.RunKeepsInv` | Sources/Y_SwiftUIToast/Y_ToastManager.swift:110-153 | every run keeps the invariant: an armed timer belongs to the latest show; clears are ordered and due within 300 ms; when not presenting and no clear is pending, the slot is empty |
| `ToastManager.GuardedRunKeepsCoherent` | Sources/Y_SwiftUIToast/Y_ToastManager.swift:151-153 | with the guarded clear, no run ever presents without a config |
| `ToastManager.LastShowWins` | Sources/Y_SwiftUIToast/Y_ToastManager.swift:110-113 | after any sequence of shows, the slot holds the last accepted show's config; if none was accepted, nothing changed |
| `ToastManager.PresentedUntilDeadline` | Sources/Y_SwiftUIToast/Y_ToastManager.swift:116-129 | with no further calls, a toast shown for d > 0 ms is presented before now + d and not after |
| `ToastManager.Manager.constructor` | Sources/Y_SwiftUIToast/Y_ToastManager.swift:17-26 | a new manager is idle: not presenting, no config, no timer, no pending clear |
| `ToastManager.Manager.Show` | Sources/Y_SwiftUIToast/Y_ToastManager.swift:29-54 | the text-and-image overload updates the fields exactly as ShowStep says |
| `ToastManager.Manager.ShowCustomImage` | Sources/Y_SwiftUIToast/Y_ToastManager.swift:57-82 | the custom-image overload updates the fields exactly as ShowStep says |
| `ToastManager.Manager.ShowCustomContent` | Sources/Y_SwiftUIToast/Y_ToastManager.swift:85-107 | the custom-content overload, which has no emptiness guard, updates the fields exactly as ShowStep says |
| `ToastManager.Manager.ShowWithConfig` | Sources/Y_SwiftUIToast/Y_ToastManager.swift:110-136 | installs the config, sets presenting, arms a timer only when duration > 0 |
| `ToastManager.Manager.Dismiss` | Sources/Y_SwiftUIToast/Y_ToastManager.swift:139-154 | updates the fields exactly as DismissStep says and keeps the invariant |
| `ToastManager.Manager.HandleTap` | Sources/Y_SwiftUIToast/Y_ToastManager.swift:157-165 | updates the fields exactly as TapStep says |
| `ToastManager.Manager.FireTimer` | Sources/Y_SwiftUIToast/Y_ToastManager.swift:117-129 | a task's wake-up dismisses only if its token is still armed |
| `ToastManager.Manager.FireClear` | Sources/Y_SwiftUIToast/Y_ToastManager.swift:151-153 | the oldest delayed clear empties the slot unconditionally |
| `ToastManager.Manager.FireClearGuarded` | Sources/Y_SwiftUIToast/Y_ToastManager.swift:151-153 | the corrected clear empties the slot only when no show followed its dismiss |
| `ToastManager.Manager.AdvanceClock` | Sources/Y_SwiftUIToast/Y_ToastManager.swift:120-122 | time passes up to the next due event; nothing else changes |
| `Toast.TextRequest` | Sources/Y_SwiftUIToast/Y_Toast.swift:98-112 | showText passes the caller's text, flags and duration and no image |
| `Toast.ImageRequest` | Sources/Y_SwiftUIToast/Y_Toast.swift:118-134 | showImage passes the caller's arguments with the given image |
| `Toast.AutoDismissRequest` | Sources/Y_SwiftUIToast/Y_Toast.swift:140-156 | showAutoDismiss passes the caller's arguments unchanged |
| `Toast.FullScreenRequest` | Sources/Y_SwiftUIToast/Y_Toast.swift:162-175 | showFullScreen passes full screen, the caller's text, tap flag and duration, and no image |
| `Toast.TimedRequest` | Sources/Y_SwiftUIToast/Y_Toast.swift:181-195 | showTimed passes the caller's text, flags and duration and no image |
| `Toast.SuccessRequest` | Sources/Y_SwiftUIToast/Y_Toast.swift:199-214 | showSuccess passes the caller's arguments with the checkmark icon |
| `Toast.ErrorRequest` | Sources/Y_SwiftUIToast/Y_Toast.swift:218-233 | showError passes the caller's arguments with the xmark icon |
| `Toast.WarningRequest` | Sources/Y_SwiftUIToast/Y_Toast.swift:237-252 | showWarning passes the caller's arguments with the warning icon |
| `Toast.LoadingRequest` | Sources/Y_SwiftUIToast/Y_Toast.swift:256-271 | showLoading passes the caller's arguments with the spinner |
| `Toast.PresetImagesFixed` | Sources/Y_SwiftUIToast/Y_Toast.swift:199-270 | success, error and warning use their fixed system icons and loading uses the spinner, whatever the other arguments |
| `Toast.PlainPresetsHaveNoImage` | Sources/Y_SwiftUIToast/Y_Toast.swift:162-195 | showText and showTimed pass no image; showFullScreen always passes full screen |
| `Toast.TimedPresetDefaults` | Sources/Y_SwiftUIToast/Y_Toast.swift:98-252 | with their defaults, showText, showImage, showAutoDismiss, showSuccess, showError and showWarning arm a 2000 ms timer |
| `Toast.FullScreenDefaults` | Sources/Y_SwiftUIToast/Y_Toast.swift:140-243 | showAutoDismiss defaults to full screen and tap-removable; showWarning defaults to full screen |
| `Toast.LoadingDefaults` | Sources/Y_SwiftUIToast/Y_Toast.swift:256-270 | showLoading with defaults presents a full-screen spinner with its default text; no timer is armed and a tap does nothing |
| `Toast.Show` | Sources/Y_SwiftUIToast/Y_Toast.swift:25-41 | forwards text, image, flags and duration to the manager unchanged |
| `Toast.ShowCustomImage` | Sources/Y_SwiftUIToast/Y_Toast.swift:52-68 | forwards text, custom image, flags and duration unchanged |
| `Toast.ShowCustomContent` | Sources/Y_SwiftUIToast/Y_Toast.swift:78-92 | forwards custom content, flags and duration unchanged |
| `Toast.ShowText` | Sources/Y_SwiftUIToast/Y_Toast.swift:98-112 | has the effect of showing TextRequest |
| `Toast.ShowImage` | Sources/Y_SwiftUIToast/Y_Toast.swift:118-134 | has the effect of showing ImageRequest |
| `Toast.ShowAutoDismiss` | Sources/Y_SwiftUIToast/Y_Toast.swift:140-156 | has the effect of showing AutoDismissRequest |
| `Toast.ShowFullScreen` | Sources/Y_SwiftUIToast/Y_Toast.swift:162-175 | has the effect of showing FullScreenRequest |
| `Toast.ShowTimed` | Sources/Y_SwiftUIToast/Y_Toast.swift:181-195 | has the effect of showing TimedRequest |
| `Toast.ShowSuccess` | Sources/Y_SwiftUIToast/Y_Toast.swift:199-214 | has the effect of showing SuccessRequest |
| `Toast.ShowError` | Sources/Y_SwiftUIToast/Y_Toast.swift:218-233 | has the effect of showing ErrorRequest |
| `Toast.ShowWarning` | Sources/Y_SwiftUIToast/Y_Toast.swift:237-252 | has the effect of showing WarningRequest |
| `Toast.ShowLoading` | Sources/Y_SwiftUIToast/Y_Toast.swift:256-271 | has the effect of showing LoadingRequest |
| `Toast.Dismiss` | Sources/Y_SwiftUIToast/Y_Toast.swift:276-278 | is the manager's dismiss |
| `Toast.IsPresenting` | Sources/Y_SwiftUIToast/Y_Toast.swift:283-285 | reads the manager's isPresenting |
| `Toast.CurrentConfig` | Sources/Y_SwiftUIToast/Y_Toast.swift:288-290 | reads the manager's currentConfig |
| `ToastView.ImageViewOf` | Sources/Y_SwiftUIToast/Y_ToastView.swift:47-76 | a custom image is drawn iff there is no image kind and a custom image is present, and it is that image; nothing is drawn iff neither is present |
| `ToastView.BodyOf` | Sources/Y_SwiftUIToast/Y_ToastView.swift:18-45 | the custom-content body is drawn iff the config has custom content, and it draws that content |
| `ToastView.OverlayOf` | Sources/Y_SwiftUIToast/Y_ToastView.swift:85-117 | the intercept layer is up only with a body and a full-screen config; a body is up only while presenting, and it is the current config's body |
| `ToastView.RenderRecoversContent` | Sources/Y_SwiftUIToast/Y_ToastView.swift:18-76 | for every config an initializer can build, the drawn body determines exactly its text, image, custom image and custom content |
| `ToastView.CustomContentHidesRest` | Sources/Y_SwiftUIToast/Y_ToastView.swift:19-21 | custom content is drawn alone; text and image are ignored |
| `ToastView.ImageTakesPrecedence` | Sources/Y_SwiftUIToast/Y_ToastView.swift:49-75 | the image kind wins; a custom image is drawn iff there is no image kind and a custom image is present |
| `ToastView.TextLineIffText` | Sources/Y_SwiftUIToast/Y_ToastView.swift:29-30 | without custom content, the text line is drawn iff the config has a text |
| `ToastView.Visibility` | Sources/Y_SwiftUIToast/Y_ToastView.swift:88-103 | the intercept layer is up iff presenting with a full-screen config; the body is up iff presenting with a config |
| `ToastView.NothingVisibleAfterDismiss` | Sources/Y_SwiftUIToast/Y_ToastView.swift:88-103 | after a dismiss, nothing is on screen through any time passing, timers waking and clears running, until the program calls the manager again |
| `ToastView.ShownToastVisible` | Sources/Y_SwiftUIToast/Y_ToastView.swift:88-103 | an accepted show puts its body on screen, with the intercept layer iff it asked for full screen |
| `ToastView.StompedToastInvisible` | Sources/Y_SwiftUIToast/Y_ToastView.swift:101-103 | in the stomped state the manager reports presenting, yet nothing is on screen |
| `ToastView.TapOnVisibleToast` | Sources/Y_SwiftUIToast/Y_ToastView.swift:95-111 | a tap on a visible toast, on either target, hides it if it is tap-removable and changes nothing otherwise |
| `ToastView.Tap` | Sources/Y_SwiftUIToast/Y_ToastView.swift:110-111 | taps on the intercept layer and the toast body call handleTap and nothing else |
| `ToastScenarios.ReplaceScenario` | Sources/Y_SwiftUIToast/Y_ToastManager.swift:39-41 | "A" for 2 s, then "B" for 5 s at t = 1 s: "B" is presented at t = 2 s and dismissed at t = 6 s |
| `ToastScenarios.EmptyTextKeepsTimer` | Sources/Y_SwiftUIToast/Y_ToastManager.swift:36 | an empty-text show does not cancel the earlier toast's timer |
| `ToastScenarios.AutoDismissScenario` | Sources/Y_SwiftUIToast/Y_ToastManager.swift:116-129 | a toast shown for d ms is presented at d - 1 and gone at d |
| `ToastScenarios.StompScenario` | Sources/Y_SwiftUIToast/Y_ToastManager.swift:151-153 | dismiss at 0, show at 100 ms, clear at 300 ms: presenting with no config |
| `ToastScenarios.DoubleDismissScenario` | Sources/Y_SwiftUIToast/Y_ToastManager.swift:139-153 | dismiss at 0 and 250 ms, show at 350 ms: the second clear at 550 ms leaves presenting with no config; with one dismiss the new config stays |
| `ToastScenarios.IdleDismissScenario` | Sources/Y_SwiftUIToast/Y_ToastManager.swift:139-153 | a dismiss while idle at 0, a show at 100 ms: the clear at 300 ms leaves presenting with no config |
| `ToastScenarios.GuardedScenario` | Sources/Y_SwiftUIToast/Y_ToastManager.swift:151-153 | the same run with the guarded clear keeps the new config |

## Left out

- Real asynchrony is not modelled: `Task`, `Task.sleep`, `Task.isCancelled`, `MainActor.run` and `DispatchQueue.main.asyncAfter`. These become the timer and clear events. The window between the cancellation check and the main-actor hop is modelled as "cancellation wins".
- Floating-point durations and the nanosecond conversion `UInt64(duration * 1_000_000_000)` are not modelled. Durations are whole milliseconds, so a NaN duration, which would make `==` irreflexive, cannot occur.
- Swift `String` equality is canonical Unicode equivalence. The model compares strings as code-point sequences, for the emptiness test and for `==`.
- `deinit`, `forceCleanupForDeinit` and the `[weak self]` captures are not modelled. They concern the lifetime of a singleton that is never freed.
- Debug logging is not modelled: `logEnabled`, `enableDebugLog`, `disableDebugLog` and `debugLog` only print.
- The facade's `disableTransition` parameter is dropped. Y_Toast.swift:38, 65 and 89 pass a `disableTransition:` argument that no manager `show` overload declares (Y_ToastManager.swift:29-35, 57-63, 85-90), so the Swift sources at this revision do not compile. The model uses the manager's declared signatures.
- SwiftUI styling is not modelled: fonts, padding, shadows, transitions and animations. Closures and views are opaque tokens. `Y_ToastModifier.swift`, the example app and `Package.swift` are not part of this model.
- Observation (`@Published`, `ObservableObject`) is not modelled. The overlay is a function of the manager's two observed fields.

## Findings

| source | as written | input that shows it | evidently intended | confidence | as-written member | corrected member |
|---|---|---|---|---|---|---|
| Sources/Y_SwiftUIToast/Y_ToastManager.swift:151-153 | the delayed clear sets `currentConfig = nil` without checking whether a newer show has happened | `show("A")`, `dismiss()` at t = 0, `show("B")` at t = 100 ms; the clear runs at t = 300 ms. Also: `dismiss()` at 0 and again at 250 ms, `show("B")` at 350 ms, second clear at 550 ms; or `dismiss()` while idle at 0, `show("B")` at 100 ms | the clear only removes the config of the toast that was dismissed; a newer toast keeps its config | medium, not executed | `ToastManager.ClearStompsReshow` | `ToastManager.GuardedRunKeepsCoherent` |

After that run, the manager reports `isPresenting == true` with `currentConfig == nil`. The overlay then draws nothing (`ToastView.StompedToastInvisible`), and `ToastScenarios.StompScenario` replays the run. A repeated dismiss (`ToastManager.ExtraDismissStompsReshow`, `ToastScenarios.DoubleDismissScenario`) and a dismiss while idle (`ToastScenarios.IdleDismissScenario`) reach the same state, because every dismiss schedules a clear of its own. The corrected clear, `Manager.FireClearGuarded` (specified by `GuardedClearStep`), compares the epoch recorded by its dismiss with the current one. With it, every run keeps "presenting implies a config". The model keeps both clears: `FireClear` models the source and `FireClearGuarded` models the fix.
