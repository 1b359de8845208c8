/**
 * The document controller `EmojiArtDocument` as a state machine over values.
 * Every field the controller owns is a field of `DocState`; every intent,
 * every arrival from the fetch subscription and every autosave timer firing
 * is a function from the old state to the new one. The class in
 * emoji_art_document.dfy is proved to follow these functions.
 *
 * The environment is explicit: the url fetch is a subscription token whose
 * value or error arrives later as an event, the autosave timer is a
 * generation number whose firing arrives later as an event, and
 * `UIImage(data:)` is the decoder `decode`, an oracle the controller does not
 * see inside.
 */
module DocumentSpec {
  import opened Wrappers
  import opened EmojiArtModel
  import opened Numerics

  /** A decoded image (`UIImage`), known only by a handle. */
  datatype Image = Image(handle: nat)

  /** `UIImage(data:)`: nil when the bytes are not an image. */
  type Decoder = Data -> Option<Image>

  /** `BackgroundFetchStatus`. */
  datatype FetchStatus = Idle | Fetching | Failed(url: URL)

  /** The live url fetch (`fetchBackgroundImageCancellable`): its token and the url it fetches. */
  datatype Subscription = Subscription(token: nat, url: URL)

  /**
   * Everything the controller owns. `autoSaveTimer` is the generation of the
   * pending single-shot timer, `fetch` the subscription that can still
   * deliver, and `saves` the snapshots written to the autosave file, oldest
   * first.
   */
  datatype DocState = DocState(
    emojiArt: Model,
    backgroundImage: Option<Image>,
    fetchStatus: FetchStatus,
    autoSaveTimer: Option<nat>,
    nextTimerGen: nat,
    fetch: Option<Subscription>,
    nextFetchToken: nat,
    saves: seq<Model>)

  /**
   * What every reachable state satisfies: the pending timer is the last one
   * armed, the live subscription is the last one issued, and while a
   * subscription is live the status is `.fetching`.
   */
  predicate Inv(s: DocState) {
    (s.autoSaveTimer.Some? ==> s.autoSaveTimer.value + 1 == s.nextTimerGen) &&
    (s.fetch.Some? ==> s.fetch.value.token + 1 == s.nextFetchToken && s.fetchStatus == Fetching)
  }

  /** Image, status and fetch subscription are as they were. */
  predicate DerivedUnchanged(s: DocState, r: DocState) {
    r.backgroundImage == s.backgroundImage && r.fetchStatus == s.fetchStatus &&
    r.fetch == s.fetch && r.nextFetchToken == s.nextFetchToken
  }

  /** `scheduleAutoSave`: invalidate the pending timer and arm a new one. */
  function ScheduleAutoSave(s: DocState): (r: DocState)
    ensures r.autoSaveTimer == Some(s.nextTimerGen) && r.nextTimerGen == s.nextTimerGen + 1
    ensures r.emojiArt == s.emojiArt && r.saves == s.saves && DerivedUnchanged(s, r)
  {
    s.(autoSaveTimer := Some(s.nextTimerGen), nextTimerGen := s.nextTimerGen + 1)
  }

  /**
   * `fetchBackgroundImage`: clear the image, then by the current background:
   * a url cancels the live subscription and starts a new one with status
   * `.fetching`; inline data is decoded on the spot; blank does nothing more.
   * Only the url case touches the subscription and the status.
   */
  function FetchBackgroundImage(s: DocState, decode: Decoder): (r: DocState)
    ensures Inv(s) ==> Inv(r)
  {
    var cleared := s.(backgroundImage := None);
    match s.emojiArt.background
    case Url(u) =>
      cleared.(fetchStatus := Fetching,
               fetch := Some(Subscription(s.nextFetchToken, u)),
               nextFetchToken := s.nextFetchToken + 1)
    case ImageData(d) => cleared.(backgroundImage := decode(d))
    case Blank => cleared
  }

  /**
   * `emojiArt = newValue` followed by its `didSet` observer: autosave is
   * rescheduled on every assignment, the background is refetched only when it
   * differs from the old one.
   */
  function AssignEmojiArt(s: DocState, newValue: Model, decode: Decoder): (r: DocState)
    ensures r.emojiArt == newValue && r.saves == s.saves
    ensures r.autoSaveTimer == Some(s.nextTimerGen) && r.nextTimerGen == s.nextTimerGen + 1
    ensures newValue.background == s.emojiArt.background ==> DerivedUnchanged(s, r)
    ensures newValue.background != s.emojiArt.background ==>
      r.backgroundImage == (if newValue.background.ImageData? then decode(newValue.background.data) else None)
    ensures newValue.background != s.emojiArt.background && newValue.background.Url? ==>
      r.fetchStatus == Fetching && r.fetch == Some(Subscription(s.nextFetchToken, newValue.background.url)) &&
      r.nextFetchToken == s.nextFetchToken + 1
    ensures newValue.background != s.emojiArt.background && !newValue.background.Url? ==>
      r.fetchStatus == s.fetchStatus && r.fetch == s.fetch && r.nextFetchToken == s.nextFetchToken
    ensures Inv(s) ==> Inv(r)
  {
    var installed := ScheduleAutoSave(s.(emojiArt := newValue));
    if newValue.background != s.emojiArt.background then FetchBackgroundImage(installed, decode) else installed
  }

  /** A document just set up around `m`: no image, `.idle`, no timer, no fetch. */
  function Fresh(m: Model): DocState {
    DocState(m, None, Idle, None, 0, None, 0, [])
  }

  /**
   * `init()`: the autosaved document if one could be loaded (then a fetch for
   * its background), else a fresh document. An initializer does not run
   * `didSet`, so no autosave is scheduled.
   */
  function Init(autosaved: Option<Model>, decode: Decoder): (r: DocState)
    ensures Inv(r) && r.autoSaveTimer.None? && r.saves == []
  {
    match autosaved
    case Some(m) => FetchBackgroundImage(Fresh(m), decode)
    case None => Fresh(EmptyModel())
  }

  /** Intent `setBackground`. */
  function OnSetBackground(s: DocState, background: Background, decode: Decoder): (r: DocState)
    ensures Inv(s) ==> Inv(r)
  {
    AssignEmojiArt(s, s.emojiArt.(background := background), decode)
  }

  /** Intent `addEmoji`: the CGFloat size is truncated to an Int; `id` is the model's fresh id. */
  function OnAddEmoji(s: DocState, text: string, x: int, y: int, size: real, id: int, decode: Decoder): (r: DocState)
    ensures Inv(s) ==> Inv(r)
  {
    AssignEmojiArt(s, EmojiArtModel.AddEmoji(s.emojiArt, text, x, y, Truncate(size), id), decode)
  }

  /** The document with the emoji at index `i` replaced. */
  function WithEmojiAt(m: Model, i: nat, e: Emoji): (r: Model)
    requires i < |m.emojis|
    ensures r.background == m.background && |r.emojis| == |m.emojis|
  {
    m.(emojis := m.emojis[i := e])
  }

  /**
   * Intent `moveEmoji`: two separate assignments, first x then y, so the
   * observer runs twice; nothing happens when the id is not found.
   */
  function OnMoveEmoji(s: DocState, emoji: Emoji, width: real, height: real, decode: Decoder): (r: DocState)
    ensures Inv(s) ==> Inv(r)
  {
    match IndexMatching(s.emojiArt.emojis, emoji)
    case None => s
    case Some(i) =>
      var before := s.emojiArt.emojis[i];
      var s1 := AssignEmojiArt(s, WithEmojiAt(s.emojiArt, i, before.(x := before.x + Truncate(width))), decode);
      var moved := s1.emojiArt.emojis[i];
      AssignEmojiArt(s1, WithEmojiAt(s1.emojiArt, i, moved.(y := moved.y + Truncate(height))), decode)
  }

  /** `Int((CGFloat(size) * scale).rounded(.toNearestOrAwayFromZero))`. */
  function ScaledSize(size: int, scale: real): (r: int)
    ensures r as real - 0.5 <= size as real * scale <= r as real + 0.5
    ensures size as real * scale == r as real + 0.5 ==> size as real * scale < 0.0
    ensures size as real * scale == r as real - 0.5 ==> 0.0 < size as real * scale
  {
    RoundHalfAwayFromZero(size as real * scale)
  }

  /** Intent `scaleEmoji`: size times scale, rounded half away from zero; nothing when not found. */
  function OnScaleEmoji(s: DocState, emoji: Emoji, scale: real, decode: Decoder): (r: DocState)
    ensures Inv(s) ==> Inv(r)
  {
    match IndexMatching(s.emojiArt.emojis, emoji)
    case None => s
    case Some(i) =>
      var before := s.emojiArt.emojis[i];
      AssignEmojiArt(s, WithEmojiAt(s.emojiArt, i, before.(size := ScaledSize(before.size, scale))), decode)
  }

  /**
   * The subscription's `receiveValue`: the fetched bytes, decoded, become the
   * image; `.idle` if they decoded, else `.failed(url)`. Only the live
   * subscription can deliver, and it delivers once.
   */
  function OnFetchDelivered(s: DocState, token: nat, data: Data, decode: Decoder): (r: DocState)
    ensures Inv(s) ==> Inv(r)
  {
    match s.fetch
    case Some(sub) =>
      if sub.token == token then
        var image := decode(data);
        s.(backgroundImage := image,
           fetchStatus := if image.Some? then Idle else Failed(sub.url),
           fetch := None)
      else s
    case None => s
  }

  /** The subscription's `receiveCompletion` with a failure: it only logs, the subscription ends. */
  function OnFetchErrored(s: DocState, token: nat): (r: DocState)
    ensures Inv(s) ==> Inv(r)
  {
    if s.fetch.Some? && s.fetch.value.token == token then s.(fetch := None) else s
  }

  /**
   * The autosave timer of generation `gen` fires: if it is the pending one,
   * `autoSave` writes the document as it is now (`saveOk` is false when the
   * autosave url is missing or encoding or writing fails, which is only logged).
   */
  function OnTimerFired(s: DocState, gen: nat, saveOk: bool): (r: DocState)
    ensures Inv(s) ==> Inv(r)
  {
    if s.autoSaveTimer == Some(gen) then
      s.(autoSaveTimer := None, saves := if saveOk then s.saves + [s.emojiArt] else s.saves)
    else s
  }

  /** Everything that can happen to a document, in the order it happens on the main queue. */
  datatype Event =
    | SetBackground(background: Background)
    | AddEmoji(text: string, x: int, y: int, size: real, id: int)
    | MoveEmoji(emoji: Emoji, width: real, height: real)
    | ScaleEmoji(emoji: Emoji, scale: real)
    | FetchDelivered(token: nat, data: Data)
    | FetchErrored(token: nat)
    | TimerFired(gen: nat, saveOk: bool)

  function Step(s: DocState, ev: Event, decode: Decoder): DocState {
    match ev
    case SetBackground(b) => OnSetBackground(s, b, decode)
    case AddEmoji(text, x, y, size, id) => OnAddEmoji(s, text, x, y, size, id, decode)
    case MoveEmoji(e, w, h) => OnMoveEmoji(s, e, w, h, decode)
    case ScaleEmoji(e, scale) => OnScaleEmoji(s, e, scale, decode)
    case FetchDelivered(token, data) => OnFetchDelivered(s, token, data, decode)
    case FetchErrored(token) => OnFetchErrored(s, token)
    case TimerFired(gen, ok) => OnTimerFired(s, gen, ok)
  }

  function Run(s: DocState, evs: seq<Event>, decode: Decoder): DocState
    decreases |evs|
  {
    if |evs| == 0 then s else Run(Step(s, evs[0], decode), evs[1..], decode)
  }
}
