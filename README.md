# Skyline SDK response resolver, in Dafny

The Skyline SDK posts an attribution payload to a server and receives
`(link, naming, first_link)`. With that reply and three persisted keys
(`initialURL`, `statusFlag`, `finalData`) it decides which URL to hand to
the app, and it updates those keys. The embedded web controller is a second
writer: when a page finishes loading, it records the web view's URL in
`finalData`, but only if `finalData` is absent.

The project has three modules:

- `Wrappers` (`wrappers.dfy`): `Option`, standing in for Swift optionals.
- `Resolver` (`resolver.dfy`): the state machine on values.
  - `Resolve` handles one reply. `None` stands for a transport failure, a
    body that is not base64, or JSON of the wrong shape.
  - `PageFinished` is the page hook.
  - `Run` replays a sequence of both kinds of event over the life of the
    installed app. The lemmas about traces use it.
- `Sdk` (`sdk.dfy`): the objects.
  - `SkylineSDK` is a class whose fields are the persisted keys plus the
    push service's tag map.
  - `WebController` holds the shared SDK instance. Its `DidFinish` writes
    that instance's `finalData` in place.
  - Each method is proved equal to its function in `Resolver`, so every
    lemma about `Resolver` also holds of the objects.

Three consequences of the code are worth stating:

- `statusFlag` is assigned from the new reply at SkylineSDK.swift:165,
  before the test at line 177. So whether a reassignment clears the cache
  depends on the new `first_link`, never on the stored flag
  (`OldFlagIrrelevant`). The flag is refreshed in the same-link branch too.
- Resolving a reply twice always leaves the same state, but the URL
  returned can differ (SkylineSDK.swift:168-176): after a first resolution
  (`initialURL` absent) that finds some other `finalData` already cached,
  the first call returns `link` and the second returns the cache.
  `ResolveIdempotent` states exactly when the two URLs agree.
- The page hook keeps no per-session record (SkylineSDK.swift:261-266): it
  writes on any finished load while `finalData` is absent
  (`PageFinishedOnce`).

## Model

| member | source | states |
|---|---|---|
| `Resolver.Resolve` | Sources/SkylineSDK/SkylineSDK.swift:152-197 | Failure leaves the state untouched and yields `Failure`. A decoded reply always succeeds with either `link` or the previous `finalData`. Afterwards `initialURL` is `link`, `statusFlag` is `first_link`, the webmaster tag is `naming` and no other tag changes, and `finalData` is kept or cleared, never set. Each of the four branches gives its own result and its own cache update. |
| `Resolver.PageFinished` | Sources/SkylineSDK/SkylineSDK.swift:261-266 | A present `finalData` is never overwritten. An absent one becomes the web view's URL, or `""` when there is none. Nothing else changes, and `finalData` is present afterwards. |
| `Resolver.Run` | Sources/SkylineSDK/SkylineSDK.swift:168-188 | Across any mix of replies and page loads, a present `finalData` either was there at the start or was recorded by one of the page loads. The resolver never puts a value there. |
| `Resolver.CacheSurvivesUnflagged` | Sources/SkylineSDK/SkylineSDK.swift:171-188 | A present `finalData` survives any sequence of failures, page loads and decoded replies, as long as none of those replies has `first_link` set. |
| `Resolver.LastResponseDetermines` | Sources/SkylineSDK/SkylineSDK.swift:164-188 | After any event sequence, `initialURL`, `statusFlag` and the webmaster tag come from the most recent decoded reply. With no decoded reply, they are what they were at the start. |
| `Resolver.ResolveIdempotent` | Sources/SkylineSDK/SkylineSDK.swift:164-176 | Resolving the same reply again leaves the state exactly as the first call left it. The two URLs returned agree if and only if `initialURL` was present, the cache was absent, or the cache equalled `link`. |
| `Resolver.OldFlagIrrelevant` | Sources/SkylineSDK/SkylineSDK.swift:165-180 | For a decoded reply, the previously stored `statusFlag` has no effect on the result or on the new state. |
| `Resolver.ReassignmentClearsCacheIff` | Sources/SkylineSDK/SkylineSDK.swift:177-188 | When the server sends a link different from the stored one, `finalData` ends up absent if and only if the new `first_link` is true or there was no cache. |
| `Resolver.ReplayAfterPageLoad` | Sources/SkylineSDK/SkylineSDK.swift:171-176 | This is the replay flow. A reply is resolved, a page then records its URL, and the same reply resolved again returns that recorded URL. |
| `Resolver.PageFinishedOnce` | Sources/SkylineSDK/SkylineSDK.swift:262-265 | A second page load changes nothing after the first. |
| `Sdk.SkylineSDK.constructor` | Sources/SkylineSDK/SkylineSDK.swift:14-16 | The shared instance starts from the persisted values of the three keys and from the current tags. |
| `Sdk.SkylineSDK.Resolve` | Sources/SkylineSDK/SkylineSDK.swift:152-197 | The in-place handler returns the completion and leaves the fields exactly as `Resolver.Resolve` says. After a decoded reply, `initialURL` is `link` and `statusFlag` is `first_link`. After a failure, no field changes. |
| `Sdk.WebController.constructor` | Sources/SkylineSDK/SkylineSDK.swift:71 | The controller refers to the SDK instance it is given, which stands for `SkylineSDK.shared` as read at line 264. |
| `Sdk.WebController.DidFinish` | Sources/SkylineSDK/SkylineSDK.swift:261-266 | The hook updates the shared instance's fields exactly as `Resolver.PageFinished` says. A present `finalData` remains unchanged. |

## Left out

- Network transport, the 20-second timeouts and `.validate()` are I/O. The transport outcome is folded into the `None` case of the reply.
- Base64 and `JSONDecoder` decoding are library calls. They are abstracted as a decoded reply, or `None` when decoding fails.
- `PushExpressManager.activate()` and `initialize` are fire-and-forget foreign calls whose failures are discarded. Only the map of tags is modelled.
- The attribution delegate, session start-up and the tracking-permission prompt are left out. They are foreign SDK calls and event plumbing.
- Payload assembly with `JSONSerialization` and hex formatting of the device token are left out. They are library formatting.
- Notification posting and main-queue dispatch are left out. They are asynchronous delivery. The model also assumes a single resolution at a time, as the one-shot trigger guarantees.
- Web view setup, the injected viewport script, layout, popup creation, `showWeb` and the SwiftUI wrapper are UI code and are left out.
- Links are compared as exact code-point sequences and are assumed to be normalised. Swift's `String` comparison (line 171) treats canonically equivalent links as equal, so for unnormalised links the model can take the reassignment branch where the app takes the same-link branch.
- The web controller's `savedData` and `statusFlag` declarations (lines 221-222) are never read or written, so they are not modelled.
