/**
 * The document controller `EmojiArtDocument` as the class it is: the fields
 * it updates in place, the `didSet` observer on `emojiArt` as an explicit
 * step after every assignment, and one method per intent and per
 * environment event. Each method is proved to produce exactly the state the
 * matching function of document_spec.dfy describes, and to keep `Valid()`.
 */
module Controller {
  import opened Wrappers
  import opened EmojiArtModel
  import opened Numerics
  import opened DocumentSpec
  import DocumentProperties

  class EmojiArtDocument {
    var emojiArt: Model
    var backgroundImage: Option<Image>
    var backgroundFetchStatus: FetchStatus
    /** Generation of the pending autosave timer, if any; `nextTimerGen` is the next one to arm. */
    var autoSaveTimer: Option<nat>
    var nextTimerGen: nat
    /** The subscription that can still deliver; `nextFetchToken` names the next one. */
    var fetchBackgroundImageCancellable: Option<Subscription>
    var nextFetchToken: nat
    /** Snapshots written to the autosave file, oldest first. */
    var saves: seq<Model>
    /** `UIImage(data:)`. */
    const decode: Decoder

    /** The controller's state as a value. */
    function State(): DocState
      reads this
    {
      DocState(emojiArt, backgroundImage, backgroundFetchStatus, autoSaveTimer, nextTimerGen,
               fetchBackgroundImageCancellable, nextFetchToken, saves)
    }

    predicate Valid()
      reads this
    {
      Inv(State())
    }

    /** The `emojis` read accessor. */
    function Emojis(): seq<Emoji>
      reads this
    {
      emojiArt.emojis
    }

    /** The `background` read accessor. */
    function CurrentBackground(): Background
      reads this
    {
      emojiArt.background
    }

    /**
     * `init()`: `autosaved` is what loading the autosave file gave (nil when
     * there is no file or it does not decode).
     */
    constructor (autosaved: Option<Model>, decode: Decoder)
      ensures Valid() && this.decode == decode
      ensures State() == Init(autosaved, decode)
    {
      this.decode := decode;
      backgroundImage := None;
      backgroundFetchStatus := Idle;
      autoSaveTimer := None;
      nextTimerGen := 0;
      fetchBackgroundImageCancellable := None;
      nextFetchToken := 0;
      saves := [];
      match autosaved {
        case Some(m) => emojiArt := m;
        case None => emojiArt := EmptyModel();
      }
      new;
      if autosaved.Some? {
        FetchBackgroundImage();
      }
      DocumentProperties.InitEffect(autosaved, decode);
    }

    /** `scheduleAutoSave`: the pending timer is invalidated by arming a newer generation. */
    method ScheduleAutoSave()
      modifies this
      ensures State() == DocumentSpec.ScheduleAutoSave(old(State()))
    {
      autoSaveTimer := Some(nextTimerGen);
      nextTimerGen := nextTimerGen + 1;
    }

    /** `fetchBackgroundImage`. */
    method FetchBackgroundImage()
      modifies this
      ensures State() == DocumentSpec.FetchBackgroundImage(old(State()), decode)
    {
      backgroundImage := None;
      match emojiArt.background {
        case Url(url) =>
          backgroundFetchStatus := Fetching;
          fetchBackgroundImageCancellable := None;
          fetchBackgroundImageCancellable := Some(Subscription(nextFetchToken, url));
          nextFetchToken := nextFetchToken + 1;
        case ImageData(data) =>
          backgroundImage := decode(data);
        case Blank =>
      }
    }

    /** An assignment to `emojiArt`, then its `didSet` observer. */
    method SetEmojiArt(newValue: Model)
      modifies this
      ensures State() == AssignEmojiArt(old(State()), newValue, decode)
    {
      var oldValue := emojiArt;
      emojiArt := newValue;
      ScheduleAutoSave();
      if emojiArt.background != oldValue.background {
        FetchBackgroundImage();
      }
    }

    /** Intent `setBackground`. */
    method SetBackground(background: Background)
      requires Valid()
      modifies this
      ensures Valid() && State() == OnSetBackground(old(State()), background, decode)
    {
      DocumentProperties.StepPreservesInv(State(), Event.SetBackground(background), decode);
      SetEmojiArt(emojiArt.(background := background));
    }

    /** Intent `addEmoji`; `id` is the id the model hands out for the new emoji. */
    method AddEmoji(text: string, x: int, y: int, size: real, id: int)
      requires Valid()
      modifies this
      ensures Valid() && State() == OnAddEmoji(old(State()), text, x, y, size, id, decode)
    {
      DocumentProperties.StepPreservesInv(State(), Event.AddEmoji(text, x, y, size, id), decode);
      SetEmojiArt(EmojiArtModel.AddEmoji(emojiArt, text, x, y, Truncate(size), id));
    }

    /** Intent `moveEmoji`: x, then y, each an assignment of its own. */
    method MoveEmoji(emoji: Emoji, width: real, height: real)
      requires Valid()
      modifies this
      ensures Valid() && State() == OnMoveEmoji(old(State()), emoji, width, height, decode)
    {
      DocumentProperties.StepPreservesInv(State(), Event.MoveEmoji(emoji, width, height), decode);
      var index := IndexMatching(emojiArt.emojis, emoji);
      if index.Some? {
        var i := index.value;
        SetEmojiArt(WithEmojiAt(emojiArt, i, emojiArt.emojis[i].(x := emojiArt.emojis[i].x + Truncate(width))));
        SetEmojiArt(WithEmojiAt(emojiArt, i, emojiArt.emojis[i].(y := emojiArt.emojis[i].y + Truncate(height))));
      }
    }

    /** Intent `scaleEmoji`. */
    method ScaleEmoji(emoji: Emoji, scale: real)
      requires Valid()
      modifies this
      ensures Valid() && State() == OnScaleEmoji(old(State()), emoji, scale, decode)
    {
      DocumentProperties.StepPreservesInv(State(), Event.ScaleEmoji(emoji, scale), decode);
      var index := IndexMatching(emojiArt.emojis, emoji);
      if index.Some? {
        var i := index.value;
        SetEmojiArt(WithEmojiAt(emojiArt, i, emojiArt.emojis[i].(size := ScaledSize(emojiArt.emojis[i].size, scale))));
      }
    }

    /**
     * The subscription `token` delivers the fetched bytes on the main queue
     * (`receiveValue`); a subscription that was cancelled or has finished
     * delivers nothing.
     */
    method FetchDelivered(token: nat, data: Data)
      requires Valid()
      modifies this
      ensures Valid() && State() == OnFetchDelivered(old(State()), token, data, decode)
    {
      DocumentProperties.StepPreservesInv(State(), Event.FetchDelivered(token, data), decode);
      match fetchBackgroundImageCancellable {
        case Some(subscription) =>
          if subscription.token == token {
            var image := decode(data);
            backgroundImage := image;
            backgroundFetchStatus := if image.Some? then Idle else Failed(subscription.url);
            fetchBackgroundImageCancellable := None;
          }
        case None =>
      }
    }

    /** The subscription `token` completes with a transport error: only logged. */
    method FetchErrored(token: nat)
      requires Valid()
      modifies this
      ensures Valid() && State() == OnFetchErrored(old(State()), token)
    {
      DocumentProperties.StepPreservesInv(State(), Event.FetchErrored(token), decode);
      if fetchBackgroundImageCancellable.Some? && fetchBackgroundImageCancellable.value.token == token {
        fetchBackgroundImageCancellable := None;
      }
    }

    /**
     * The autosave timer of generation `gen` fires and runs `autoSave`;
     * `saveOk` is false when there is no autosave url or encoding or writing
     * fails.
     */
    method TimerFired(gen: nat, saveOk: bool)
      requires Valid()
      modifies this
      ensures Valid() && State() == OnTimerFired(old(State()), gen, saveOk)
    {
      DocumentProperties.StepPreservesInv(State(), Event.TimerFired(gen, saveOk), decode);
      if autoSaveTimer == Some(gen) {
        autoSaveTimer := None;
        if saveOk {
          saves := saves + [emojiArt];
        }
      }
    }
  }
}
