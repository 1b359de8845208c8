# EmojiArt document controller in Dafny

A model of the core of EmojiArt: the document controller `EmojiArtDocument`
and the background type `EmojiArtModel.Background` it reacts to.

The controller owns one document value, `emojiArt`. The document is a
background plus an ordered list of emojis. From that value the controller
derives a background image and a fetch status. It also runs one re-armable
autosave timer and at most one live url fetch. Four intents change the
document: `setBackground`, `addEmoji`, `moveEmoji` and `scaleEmoji`. Every
assignment to `emojiArt` runs its `didSet` observer. The observer re-arms
autosave every time and refetches the background only when it differs
structurally from the old one.

Files:

- `wrappers.dfy`: `Option`, the counterpart of Swift's optionals.
- `numerics.dfy`: `Int(CGFloat)`, which truncates toward zero, and
  `rounded(.toNearestOrAwayFromZero)`, both over exact reals.
- `emoji_art_model.dfy`: `Background` with its `url` and `imageData`
  accessors and its derived equality; `Emoji` and `Model`; and the two
  helpers the controller calls but whose code is not part of this model,
  `addEmoji` and `index(matching:)`. Each is given the contract the
  controller relies on.
- `document_spec.dfy`: the controller as a state machine over values
  (`DocState`). It has one function per intent, one per fetch result or
  error, and one per timer firing. `Step` and `Run` apply events in order.
- `document_properties.dfy`: the controller's promises, proved about that
  state machine.
- `emoji_art_document.dfy`: the class `EmojiArtDocument` with the fields the
  source updates in place. Each method is proved to produce exactly the
  state the matching function of `document_spec.dfy` gives. Each intent and
  event method is also proved to keep the invariant `Valid()`.

The environment is explicit:

- The url fetch is a subscription token. Its value (`FetchDelivered`) or
  its transport error (`FetchErrored`) arrives later as a method call. Only
  the live subscription is heard, and it is heard once.
- The autosave timer is a generation number. `TimerFired(gen, saveOk)`
  saves only when `gen` is the pending generation. A save appends a
  snapshot of the document at firing time to `saves`.
- `UIImage(data:)` is the decoder `decode`, fixed when the document is
  constructed.
- Loading the autosave file is the constructor's `autosaved` argument.

Quirks of the code are modelled as written:

- Only the `.url` case of `fetchBackgroundImage` cancels or replaces the
  subscription and sets the status.
- `.imageData` and `.blank` neither reset `.fetching` nor cancel an older
  url fetch. That fetch can still deliver and replace the image decoded
  from inline bytes (`StaleUrlFetchReplacesInlineImage`).
- A transport error is only logged, so the status stays `.fetching`.
- `moveEmoji` assigns x and y in two separate statements, so `didSet` runs
  twice and the timer is armed twice.
- An initializer does not run `didSet`, so `init()` schedules no autosave.
  It calls `fetchBackgroundImage` itself when an autosave was loaded.

## Model

| member | source | states |
|---|---|---|
| `Numerics.Truncate` | EmojiArt/EmojiArtDocument.swift:147-148 | `Int(x)` is the integer next to `x` on the side of zero: `n <= x < n+1` for `x >= 0`, `n-1 < x <= n` below |
| `Numerics.RoundHalfAwayFromZero` | EmojiArt/EmojiArtDocument.swift:154 | the result is within 1/2 of `x`, and on a tie it lies farther from zero |
| `Numerics.TruncateTowardZero` | EmojiArt/EmojiArtDocument.swift:142 | truncation gives 0 exactly on (-1, 1) and leaves integers alone |
| `Numerics.RoundingExamples` | EmojiArt/EmojiArtDocument.swift:154 | 40×1.5 gives 60, 3×1.5 gives 5, -4.5 gives -5, 80×2 gives 160 |
| `Numerics.RoundIntegerIsIdentity` | EmojiArt/EmojiArtDocument.swift:154 | rounding an integer gives it back, so scaling by 1.0 keeps the size |
| `DocumentSpec.ScaledSize` | EmojiArt/EmojiArtDocument.swift:154 | the new size is within 1/2 of size × scale, and on a tie it lies farther from zero (3 × 1.5 gives 5) |
| `EmojiArtModel.UrlOf` | EmojiArt/EmojiArtModel.Background.swift:17-22 | non-nil exactly for `.url(u)`, and then it is `u` |
| `EmojiArtModel.ImageDataOf` | EmojiArt/EmojiArtModel.Background.swift:24-29 | non-nil exactly for `.imageData(d)`, and then it is `d` |
| `EmojiArtModel.SameBackgroundIsEquality` | EmojiArt/EmojiArtModel.Background.swift:12-15 | the derived `==` (same case, equal payload) is structural equality, both directions |
| `EmojiArtModel.AccessorsExclusive` | EmojiArt/EmojiArtModel.Background.swift:13-29 | for `.blank` both accessors are nil; never are both non-nil |
| `EmojiArtModel.AccessorsDetermineBackground` | EmojiArt/EmojiArtModel.Background.swift:12-29 | two backgrounds with equal `url` and equal `imageData` are equal |
| `EmojiArtModel.EmptyModel` | EmojiArt/EmojiArtDocument.swift:64 | `EmojiArtModel()` is blank with no emojis |
| `EmojiArtModel.AddEmoji` | EmojiArt/EmojiArtDocument.swift:142 | assumed contract of the model's `addEmoji`: the background stays, the old emojis stay in order, and one emoji with the given fields and id is appended |
| `EmojiArtModel.AddEmojiKeepsIdsUnique` | EmojiArt/EmojiArtDocument.swift:142 | appending with an id no emoji carries keeps all ids distinct |
| `EmojiArtModel.IndexMatching` | EmojiArt/EmojiArtDocument.swift:146 | assumed contract of `index(matching:)`: nil exactly when no emoji has the id; otherwise an in-range index whose emoji has the id, with no earlier such index |
| `EmojiArtModel.AddedEmojiIsFound` | EmojiArt/EmojiArtDocument.swift:142-146 | an emoji added with a fresh id is found again, at the top of the list |
| `EmojiArtModel.IndexMatchingUnique` | EmojiArt/EmojiArtDocument.swift:153 | with unique ids, the index found is the only one with that id |
| `DocumentSpec.ScheduleAutoSave` | EmojiArt/EmojiArtDocument.swift:23-28 | the timer armed last becomes the pending one, with the generation counter advanced by exactly one; document, image, status, subscription and saves stay |
| `DocumentSpec.AssignEmojiArt` | EmojiArt/EmojiArtDocument.swift:12-18 | an assignment installs the new document, saves nothing and always re-arms autosave. An equal background leaves image, status and subscription unchanged. A different one clears the image, or sets it to the decoded inline data. For a url it also sets `.fetching` and a new subscription for that url; otherwise status and subscription stay. The invariant is kept |
| `DocumentSpec.FetchBackgroundImage` | EmojiArt/EmojiArtDocument.swift:81-130 | keeps the invariant; its three branches are stated by `FetchBackgroundImageCases` |
| `DocumentSpec.Init` | EmojiArt/EmojiArtDocument.swift:59-68 | the initial state satisfies the invariant, has no pending autosave and nothing saved; its branches are stated by `InitEffect` |
| `DocumentSpec.OnSetBackground` | EmojiArt/EmojiArtDocument.swift:137-139 | keeps the invariant; its effect is stated by `SetBackgroundEffect` |
| `DocumentSpec.OnAddEmoji` | EmojiArt/EmojiArtDocument.swift:141-143 | keeps the invariant; its effect is stated by `AddEmojiEffect` |
| `DocumentSpec.OnMoveEmoji` | EmojiArt/EmojiArtDocument.swift:145-150 | keeps the invariant; its effect is stated by `MoveEmojiEffect` and `NotFoundIsNoOp` |
| `DocumentSpec.OnScaleEmoji` | EmojiArt/EmojiArtDocument.swift:152-156 | keeps the invariant; its effect is stated by `ScaleEmojiEffect` and `NotFoundIsNoOp` |
| `DocumentSpec.OnFetchDelivered` | EmojiArt/EmojiArtDocument.swift:104-107 | keeps the invariant; its effect is stated by `FetchDeliveredEffect` |
| `DocumentSpec.OnFetchErrored` | EmojiArt/EmojiArtDocument.swift:96-103 | keeps the invariant; its effect, including that an error from a subscription that is not live changes nothing, is stated by `TransportErrorKeepsFetching` |
| `DocumentSpec.OnTimerFired` | EmojiArt/EmojiArtDocument.swift:39-43 | keeps the invariant; its effect, including that only saves and the timer change, is stated by `TimerFiredEffect` |
| `DocumentProperties.FetchBackgroundImageCases` | EmojiArt/EmojiArtDocument.swift:81-130 | the image is cleared first. For `.url`: `.fetching`, and a new subscription for that url replaces the old one. For `.imageData`: the decoded image; status and subscription unchanged. For `.blank`: no image; status and subscription unchanged. The document and timer are untouched in every case |
| `DocumentProperties.SetBackgroundEffect` | EmojiArt/EmojiArtDocument.swift:137-139 | the background is installed and autosave re-armed. An equal background leaves image, status and subscription untouched. A different one starts `fetchBackgroundImage` |
| `DocumentProperties.AddEmojiEffect` | EmojiArt/EmojiArtDocument.swift:141-143 | the emoji is appended with its size truncated; background, image, status and subscription stay; autosave is re-armed; ids stay unique when the id is fresh |
| `DocumentProperties.MoveEmojiEffect` | EmojiArt/EmojiArtDocument.swift:145-150 | the found emoji gets x + Int(width) and y + Int(height) with id, text and size kept. Every other emoji, the order and the background stay. The emoji is found again at the same index. Image, status and subscription stay, and autosave is re-armed twice |
| `DocumentProperties.ReplaceEmojiEffect` | EmojiArt/EmojiArtDocument.swift:147-148 | one in-place update of an emoji changes only that index, starts no fetch and re-arms autosave |
| `DocumentProperties.ScaleEmojiEffect` | EmojiArt/EmojiArtDocument.swift:152-156 | the found emoji's size becomes size × scale rounded half away from zero. Every other emoji, the order and the background stay, and the emoji is found again at the same index. Image, status and subscription stay, and autosave is re-armed |
| `DocumentProperties.IndexMatchingSameIds` | EmojiArt/EmojiArtDocument.swift:146 | lookup depends only on ids: two lists with the same ids at every index give the same answer |
| `DocumentProperties.NotFoundIsNoOp` | EmojiArt/EmojiArtDocument.swift:145-156 | moving or scaling an emoji whose id is absent leaves the whole state unchanged, timer included |
| `DocumentProperties.MoveAndScaleKeepIds` | EmojiArt/EmojiArtDocument.swift:145-156 | moving and scaling keep ids unique |
| `DocumentProperties.FetchDeliveredEffect` | EmojiArt/EmojiArtDocument.swift:104-107 | a value from the live subscription sets the image to the decoded bytes. The status becomes `.idle` if they decoded, else `.failed(url)`. A value from any other subscription changes nothing |
| `DocumentProperties.TransportErrorKeepsFetching` | EmojiArt/EmojiArtDocument.swift:96-103 | an error from the live subscription only ends it: image, status (so a live `.fetching` stays), document, timer and saves are unchanged. An error from any other subscription changes nothing |
| `DocumentProperties.TimerFiredEffect` | EmojiArt/EmojiArtDocument.swift:39-43 | only the pending generation saves, and it saves the document as it is at firing time. Image, status, subscription and generation counter stay. A stale generation changes nothing |
| `DocumentProperties.InitEffect` | EmojiArt/EmojiArtDocument.swift:59-71 | with a loaded autosave the document is that model and its background is fetched. Otherwise it is a blank empty model with no image, `.idle` and no fetch. No autosave is pending, and the invariant holds |
| `DocumentProperties.StepPreservesInv` | EmojiArt/EmojiArtDocument.swift:81-108 | every intent and event keeps the invariant: the pending timer is the last one armed, and a live subscription is the last one issued with status `.fetching` |
| `DocumentProperties.RunPreservesInv` | EmojiArt/EmojiArtDocument.swift:11-157 | every run of events keeps the invariant |
| `DocumentProperties.SupersededEventsIgnored` | EmojiArt/EmojiArtDocument.swift:84-93 | results of cancelled fetches and firings of invalidated timers, in any number and order, change nothing |
| `DocumentProperties.UrlChangeSupersedesEarlierWork` | EmojiArt/EmojiArtDocument.swift:84-93 | after a change to a url background, results and errors of every fetch issued before, the one live at the change included, and firings of every timer armed before, the pending one included, change nothing in any order; only the new subscription is live |
| `DocumentProperties.NewOutcomeNotOverwritten` | EmojiArt/EmojiArtDocument.swift:84-107 | once the fetch started by a url change has delivered, results and errors of every earlier fetch and firings of every earlier timer, in any order, leave its image and the whole state as they are |
| `DocumentProperties.StaleUrlFetchReplacesInlineImage` | EmojiArt/EmojiArtDocument.swift:125-126 | switching to `.imageData` keeps an older url fetch live and `.fetching`, and that fetch's value then replaces the inline image |
| `DocumentProperties.BurstLeavesOneSavePending` | EmojiArt/EmojiArtDocument.swift:12-28 | after a burst of intents that starts with a `setBackground` or `addEmoji` and may contain any moves and scales, one timer is pending, armed last. Every earlier timer is stale and nothing was saved during the burst. The pending timer saves the final document. A burst of `setBackground`/`addEmoji` arms exactly one timer per edit |
| `DocumentProperties.IntentKeepsLatestPending` | EmojiArt/EmojiArtDocument.swift:137-156 | any intent keeps the last armed timer the pending one and saves nothing; `setBackground` and `addEmoji` arm exactly one new timer |
| `DocumentProperties.IntentRunKeepsLatestPending` | EmojiArt/EmojiArtDocument.swift:12-28 | a run of intents keeps the last armed timer the pending one and saves nothing |
| `DocumentProperties.SampleSession` | EmojiArt/EmojiArtDocument.swift:65-66 | adding the two sample emojis 😀 and 😷, moving the second by (10, 10) and scaling the first by 2 gives sizes 160 and 40 at (-200, -100) and (60, 110), in the original order |
| `Controller.EmojiArtDocument.constructor` | EmojiArt/EmojiArtDocument.swift:59-68 | the new document's state is `Init(autosaved)`, and it is valid |
| `Controller.EmojiArtDocument.Emojis` | EmojiArt/EmojiArtDocument.swift:132 | the `emojis` read accessor: the current document's emojis |
| `Controller.EmojiArtDocument.CurrentBackground` | EmojiArt/EmojiArtDocument.swift:133 | the `background` read accessor: the current document's background |
| `Controller.EmojiArtDocument.ScheduleAutoSave` | EmojiArt/EmojiArtDocument.swift:23-28 | the fields change as `ScheduleAutoSave` says |
| `Controller.EmojiArtDocument.FetchBackgroundImage` | EmojiArt/EmojiArtDocument.swift:81-130 | the fields change as `FetchBackgroundImage` says |
| `Controller.EmojiArtDocument.SetEmojiArt` | EmojiArt/EmojiArtDocument.swift:12-18 | assignment plus `didSet`: the fields change as `AssignEmojiArt` says |
| `Controller.EmojiArtDocument.SetBackground` | EmojiArt/EmojiArtDocument.swift:137-139 | the state becomes `OnSetBackground` of the old state; validity is kept |
| `Controller.EmojiArtDocument.AddEmoji` | EmojiArt/EmojiArtDocument.swift:141-143 | the state becomes `OnAddEmoji` of the old state; validity is kept |
| `Controller.EmojiArtDocument.MoveEmoji` | EmojiArt/EmojiArtDocument.swift:145-150 | the state becomes `OnMoveEmoji` of the old state, through two in-place assignments; validity is kept |
| `Controller.EmojiArtDocument.ScaleEmoji` | EmojiArt/EmojiArtDocument.swift:152-156 | the state becomes `OnScaleEmoji` of the old state; validity is kept |
| `Controller.EmojiArtDocument.FetchDelivered` | EmojiArt/EmojiArtDocument.swift:104-107 | the state becomes `OnFetchDelivered` of the old state; validity is kept |
| `Controller.EmojiArtDocument.FetchErrored` | EmojiArt/EmojiArtDocument.swift:96-103 | the state becomes `OnFetchErrored` of the old state; validity is kept |
| `Controller.EmojiArtDocument.TimerFired` | EmojiArt/EmojiArtDocument.swift:25-27 | the state becomes `OnTimerFired` of the old state; validity is kept |

## Left out

- JSON encoding, the file write, the Documents-directory lookup and the
  logging in `save(to:)` are I/O. A save is a snapshot appended to `saves`.
  Every failure path (no url, an encoding error, a write error) is the
  single flag `saveOk = false`, which writes nothing.
- Reading and decoding the autosave file in `init()` is I/O. Its outcome is
  the constructor's `autosaved` argument.
- URLSession, the Combine pipeline and the hop to the main queue are
  replaced by explicit `FetchDelivered` and `FetchErrored` calls carrying a
  subscription token. A subscription ends after its value or its error. The
  weak reference to `self` is not modelled: a released document receives
  nothing anyway.
- `UIImage(data:)` is the opaque decoder `decode`. The image is a handle.
- CGFloat is modelled as exact `real`. Rounding error, and the trap `Int(_:)`
  raises on NaN, infinity or out-of-range values, are not modelled.
- Swift `Int` is 64-bit and traps on overflow; the model's integers are
  unbounded. So the trap of `x += Int(offset.width)` and
  `y += Int(offset.height)` on a coordinate that leaves the 64-bit range is
  not modelled, and neither is an out-of-range scaled size.
- `EmojiArtModel.addEmoji` and `index(matching:)` are not part of this
  model. They are given the contracts the controller relies on. The new
  emoji's id comes from the model's id source and is an argument here.
- `EmojiArtModel.AddEmoji`: the contract says only what the controller
  needs. The uniqueness of the id the model hands out is not modelled. It
  is a precondition of `AddEmojiKeepsIdsUnique` instead.
- `EmojiArtModel.IndexMatching`: first match is assumed. With unique ids
  (`IndexMatchingUnique`) every matching index is the first.
- `@Published` observer notification and the timer's 5-second delay are
  not modelled. Timers fire only through `TimerFired`, in any order and at
  any time.
- Undo/redo is not modelled, because no undo code appears in the controller.
- The palette chooser view and the app entry point are presentation code
  and are not part of this model.
- The model follows the code where a cleaner design would differ. A design
  in which `.imageData` and `.blank` set `.idle` and cancel a live fetch,
  and in which a transport error gives `.failed(url)`, would behave
  differently here (`FetchBackgroundImageCases`,
  `TransportErrorKeepsFetching`, `StaleUrlFetchReplacesInlineImage`).
