/**
 * What the document controller promises, proved about the state machine of
 * document_spec.dfy: the effect of each intent and event, the invariant every
 * reachable state keeps, supersession of fetches and timers, and the
 * debouncing of autosave.
 */
module DocumentProperties {
  import opened Wrappers
  import opened EmojiArtModel
  import opened Numerics
  import opened DocumentSpec

  /**
   * `fetchBackgroundImage` always clears the image first; a url sets
   * `.fetching` and replaces the subscription; inline data leaves the decoded
   * image and keeps status and subscription; blank keeps them too.
   */
  lemma FetchBackgroundImageCases(s: DocState, decode: Decoder)
    ensures var r := FetchBackgroundImage(s, decode);
      r.emojiArt == s.emojiArt && r.autoSaveTimer == s.autoSaveTimer &&
      r.nextTimerGen == s.nextTimerGen && r.saves == s.saves
    ensures var r := FetchBackgroundImage(s, decode);
      s.emojiArt.background.Url? ==>
        r.backgroundImage.None? && r.fetchStatus == Fetching &&
        r.fetch == Some(Subscription(s.nextFetchToken, s.emojiArt.background.url)) &&
        r.nextFetchToken > s.nextFetchToken
    ensures var r := FetchBackgroundImage(s, decode);
      s.emojiArt.background.ImageData? ==>
        r.backgroundImage == decode(s.emojiArt.background.data) &&
        r.fetchStatus == s.fetchStatus && r.fetch == s.fetch && r.nextFetchToken == s.nextFetchToken
    ensures var r := FetchBackgroundImage(s, decode);
      s.emojiArt.background.Blank? ==>
        r.backgroundImage.None? && r.fetchStatus == s.fetchStatus &&
        r.fetch == s.fetch && r.nextFetchToken == s.nextFetchToken
  {
  }

  /**
   * `setBackground` installs the background and re-arms autosave; a fetch
   * starts only when the new background differs from the old one, and an
   * equal one leaves image, status and subscription untouched.
   */
  lemma SetBackgroundEffect(s: DocState, b: Background, decode: Decoder)
    ensures var r := OnSetBackground(s, b, decode);
      r.emojiArt == s.emojiArt.(background := b) && r.saves == s.saves &&
      r.autoSaveTimer == Some(s.nextTimerGen) && r.nextTimerGen == s.nextTimerGen + 1
    ensures b == s.emojiArt.background ==> DerivedUnchanged(s, OnSetBackground(s, b, decode))
    ensures b != s.emojiArt.background ==>
      OnSetBackground(s, b, decode).backgroundImage == (if b.ImageData? then decode(b.data) else None)
    ensures var r := OnSetBackground(s, b, decode);
      b != s.emojiArt.background && b.Url? ==>
        r.fetchStatus == Fetching && r.fetch == Some(Subscription(s.nextFetchToken, b.url))
    ensures var r := OnSetBackground(s, b, decode);
      b != s.emojiArt.background && !b.Url? ==>
        r.fetchStatus == s.fetchStatus && r.fetch == s.fetch
  {
  }

  /**
   * `addEmoji` appends the emoji with its size truncated, keeps the background
   * and so starts no fetch, re-arms autosave, and keeps ids unique when the
   * new id is fresh.
   */
  lemma AddEmojiEffect(s: DocState, text: string, x: int, y: int, size: real, id: int, decode: Decoder)
    ensures var r := OnAddEmoji(s, text, x, y, size, id, decode);
      r.emojiArt.background == s.emojiArt.background &&
      r.emojiArt.emojis == s.emojiArt.emojis + [Emoji(text, x, y, Truncate(size), id)] &&
      DerivedUnchanged(s, r) && r.saves == s.saves &&
      r.autoSaveTimer == Some(s.nextTimerGen) && r.nextTimerGen == s.nextTimerGen + 1
    ensures UniqueIds(s.emojiArt.emojis) && IdAbsent(s.emojiArt.emojis, id) ==>
      UniqueIds(OnAddEmoji(s, text, x, y, size, id, decode).emojiArt.emojis)
  {
  }

  /**
   * One in-place update of the emoji at index `i`: the list gets the new
   * emoji there, the background is the same so no fetch starts, and
   * autosave is re-armed.
   */
  lemma ReplaceEmojiEffect(s: DocState, i: nat, e: Emoji, decode: Decoder)
    requires i < |s.emojiArt.emojis|
    ensures var r := AssignEmojiArt(s, WithEmojiAt(s.emojiArt, i, e), decode);
      r.emojiArt == Model(s.emojiArt.background, s.emojiArt.emojis[i := e]) &&
      DerivedUnchanged(s, r) && r.saves == s.saves &&
      r.autoSaveTimer == Some(s.nextTimerGen) && r.nextTimerGen == s.nextTimerGen + 1
  {
  }

  /**
   * `moveEmoji` on a found emoji: x and y grow by the truncated offsets, id,
   * text and size stay, every other emoji, the order and the background stay,
   * the emoji is still found at the same index, and autosave is re-armed
   * (twice, once per assignment).
   */
  lemma MoveEmojiEffect(s: DocState, e: Emoji, width: real, height: real, decode: Decoder, i: nat)
    requires IndexMatching(s.emojiArt.emojis, e) == Some(i)
    ensures var r := OnMoveEmoji(s, e, width, height, decode);
      var before := s.emojiArt.emojis[i];
      r.emojiArt.background == s.emojiArt.background &&
      |r.emojiArt.emojis| == |s.emojiArt.emojis| &&
      r.emojiArt.emojis[i] == before.(x := before.x + Truncate(width), y := before.y + Truncate(height))
    ensures var r := OnMoveEmoji(s, e, width, height, decode);
      |r.emojiArt.emojis| == |s.emojiArt.emojis| &&
      forall j :: 0 <= j < |s.emojiArt.emojis| && j != i ==> r.emojiArt.emojis[j] == s.emojiArt.emojis[j]
    ensures var r := OnMoveEmoji(s, e, width, height, decode);
      DerivedUnchanged(s, r) && r.saves == s.saves &&
      r.autoSaveTimer == Some(s.nextTimerGen + 1) && r.nextTimerGen == s.nextTimerGen + 2
    ensures IndexMatching(OnMoveEmoji(s, e, width, height, decode).emojiArt.emojis, e) == Some(i)
  {
    var before := s.emojiArt.emojis[i];
    var movedX := before.(x := before.x + Truncate(width));
    var s1 := AssignEmojiArt(s, WithEmojiAt(s.emojiArt, i, movedX), decode);
    ReplaceEmojiEffect(s, i, movedX, decode);
    var movedXY := movedX.(y := before.y + Truncate(height));
    assert s1.emojiArt.emojis[i].(y := s1.emojiArt.emojis[i].y + Truncate(height)) == movedXY;
    var r := AssignEmojiArt(s1, WithEmojiAt(s1.emojiArt, i, movedXY), decode);
    ReplaceEmojiEffect(s1, i, movedXY, decode);
    assert OnMoveEmoji(s, e, width, height, decode) == r;
    IndexMatchingSameIds(s.emojiArt.emojis, r.emojiArt.emojis, e);
  }

  /**
   * `scaleEmoji` on a found emoji: its size becomes size times scale rounded
   * half away from zero, nothing else changes, autosave is re-armed.
   */
  lemma ScaleEmojiEffect(s: DocState, e: Emoji, scale: real, decode: Decoder, i: nat)
    requires IndexMatching(s.emojiArt.emojis, e) == Some(i)
    ensures var r := OnScaleEmoji(s, e, scale, decode);
      var before := s.emojiArt.emojis[i];
      r.emojiArt.background == s.emojiArt.background &&
      |r.emojiArt.emojis| == |s.emojiArt.emojis| &&
      r.emojiArt.emojis[i] == before.(size := ScaledSize(before.size, scale))
    ensures var r := OnScaleEmoji(s, e, scale, decode);
      |r.emojiArt.emojis| == |s.emojiArt.emojis| &&
      forall j :: 0 <= j < |s.emojiArt.emojis| && j != i ==> r.emojiArt.emojis[j] == s.emojiArt.emojis[j]
    ensures var r := OnScaleEmoji(s, e, scale, decode);
      DerivedUnchanged(s, r) && r.saves == s.saves &&
      r.autoSaveTimer == Some(s.nextTimerGen) && r.nextTimerGen == s.nextTimerGen + 1
    ensures IndexMatching(OnScaleEmoji(s, e, scale, decode).emojiArt.emojis, e) == Some(i)
  {
    var before := s.emojiArt.emojis[i];
    var scaled := before.(size := ScaledSize(before.size, scale));
    var r := AssignEmojiArt(s, WithEmojiAt(s.emojiArt, i, scaled), decode);
    ReplaceEmojiEffect(s, i, scaled, decode);
    assert OnScaleEmoji(s, e, scale, decode) == r;
    IndexMatchingSameIds(s.emojiArt.emojis, r.emojiArt.emojis, e);
  }

  /** Lookup by id only sees ids: two lists with the same ids, index by index, agree. */
  lemma IndexMatchingSameIds(a: seq<Emoji>, b: seq<Emoji>, e: Emoji)
    requires |a| == |b| && forall j :: 0 <= j < |a| ==> a[j].id == b[j].id
    ensures IndexMatching(a, e) == IndexMatching(b, e)
  {
  }

  /** Moving or scaling an emoji whose id is not found changes nothing, not even the timer. */
  lemma NotFoundIsNoOp(s: DocState, e: Emoji, width: real, height: real, scale: real, decode: Decoder)
    requires IdAbsent(s.emojiArt.emojis, e.id)
    ensures OnMoveEmoji(s, e, width, height, decode) == s
    ensures OnScaleEmoji(s, e, scale, decode) == s
  {
  }

  /** Moving and scaling keep every id in place, so unique ids stay unique. */
  lemma MoveAndScaleKeepIds(s: DocState, e: Emoji, width: real, height: real, scale: real, decode: Decoder)
    requires UniqueIds(s.emojiArt.emojis)
    ensures UniqueIds(OnMoveEmoji(s, e, width, height, decode).emojiArt.emojis)
    ensures UniqueIds(OnScaleEmoji(s, e, scale, decode).emojiArt.emojis)
  {
  }

  /**
   * A value from the live subscription installs the decoded image: `.idle`
   * when it decoded, `.failed(url)` when not; a value from any other
   * subscription is ignored.
   */
  lemma FetchDeliveredEffect(s: DocState, token: nat, data: Data, decode: Decoder)
    ensures var r := OnFetchDelivered(s, token, data, decode);
      s.fetch.Some? && s.fetch.value.token == token ==>
        r.backgroundImage == decode(data) &&
        r.fetchStatus == (if decode(data).Some? then Idle else Failed(s.fetch.value.url)) &&
        r.fetch.None? && r.emojiArt == s.emojiArt && r.autoSaveTimer == s.autoSaveTimer && r.saves == s.saves
    ensures !(s.fetch.Some? && s.fetch.value.token == token) ==> OnFetchDelivered(s, token, data, decode) == s
  {
  }

  /**
   * A transport error only ends the subscription: image and status stay, so
   * the status stays `.fetching` until the background changes again.
   */
  lemma TransportErrorKeepsFetching(s: DocState, token: nat)
    requires Inv(s)
    ensures var r := OnFetchErrored(s, token);
      r.backgroundImage == s.backgroundImage && r.fetchStatus == s.fetchStatus &&
      r.emojiArt == s.emojiArt && r.fetch.None? == (s.fetch.None? || s.fetch.value.token == token)
    ensures var r := OnFetchErrored(s, token);
      r.autoSaveTimer == s.autoSaveTimer && r.nextTimerGen == s.nextTimerGen &&
      r.saves == s.saves && r.nextFetchToken == s.nextFetchToken
    ensures s.fetch.Some? && s.fetch.value.token == token ==> OnFetchErrored(s, token).fetchStatus == Fetching
    ensures !(s.fetch.Some? && s.fetch.value.token == token) ==> OnFetchErrored(s, token) == s
  {
  }

  /**
   * Only the pending timer saves, and it saves the document as it is when it
   * fires; a stale generation does nothing.
   */
  lemma TimerFiredEffect(s: DocState, gen: nat, saveOk: bool)
    ensures var r := OnTimerFired(s, gen, saveOk);
      s.autoSaveTimer == Some(gen) ==>
        r.autoSaveTimer.None? && r.emojiArt == s.emojiArt &&
        r.saves == s.saves + (if saveOk then [s.emojiArt] else [])
    ensures var r := OnTimerFired(s, gen, saveOk);
      DerivedUnchanged(s, r) && r.nextTimerGen == s.nextTimerGen
    ensures s.autoSaveTimer != Some(gen) ==> OnTimerFired(s, gen, saveOk) == s
  {
  }

  /**
   * `init()`: with a loaded autosave the document is that model and a fetch
   * is started for its background; without one it is a fresh blank document,
   * no image, `.idle`, no fetch. No autosave is pending either way.
   */
  lemma InitEffect(autosaved: Option<Model>, decode: Decoder)
    ensures var r := Init(autosaved, decode);
      Inv(r) && r.autoSaveTimer.None? && r.saves == [] && r.emojiArt == (if autosaved.Some? then autosaved.value else EmptyModel())
    ensures autosaved.None? ==>
      var r := Init(autosaved, decode);
      r.backgroundImage.None? && r.fetchStatus == Idle && r.fetch.None?
    ensures autosaved.Some? && autosaved.value.background.Url? ==>
      var r := Init(autosaved, decode);
      r.backgroundImage.None? && r.fetchStatus == Fetching &&
      r.fetch == Some(Subscription(0, autosaved.value.background.url))
    ensures autosaved.Some? && !autosaved.value.background.Url? ==>
      var r := Init(autosaved, decode);
      r.fetchStatus == Idle && r.fetch.None? &&
      r.backgroundImage == (if autosaved.value.background.ImageData? then decode(autosaved.value.background.data) else None)
  {
  }

  /** Every event keeps the invariant. */
  lemma StepPreservesInv(s: DocState, ev: Event, decode: Decoder)
    requires Inv(s)
    ensures Inv(Step(s, ev, decode))
  {
  }

  /** Every run of events from a state satisfying the invariant keeps it. */
  lemma {:induction false} RunPreservesInv(s: DocState, evs: seq<Event>, decode: Decoder)
    requires Inv(s)
    ensures Inv(Run(s, evs, decode))
    decreases |evs|
  {
    if |evs| > 0 {
      StepPreservesInv(s, evs[0], decode);
      RunPreservesInv(Step(s, evs[0], decode), evs[1..], decode);
    }
  }

  /**
   * An event from something already superseded: a fetch result or error whose
   * token was issued before `s` but is not the live one, or a timer armed
   * before `s` that is not the pending one.
   */
  predicate Superseded(s: DocState, ev: Event) {
    match ev
    case FetchDelivered(token, _) => token < s.nextFetchToken && !(s.fetch.Some? && s.fetch.value.token == token)
    case FetchErrored(token) => token < s.nextFetchToken && !(s.fetch.Some? && s.fetch.value.token == token)
    case TimerFired(gen, _) => gen < s.nextTimerGen && s.autoSaveTimer != Some(gen)
    case _ => false
  }

  /** Any run of superseded events, in any order, leaves the state exactly as it was. */
  lemma {:induction false} SupersededEventsIgnored(s: DocState, evs: seq<Event>, decode: Decoder)
    requires forall i :: 0 <= i < |evs| ==> Superseded(s, evs[i])
    ensures Run(s, evs, decode) == s
    decreases |evs|
  {
    if |evs| > 0 {
      assert Superseded(s, evs[0]);
      assert Step(s, evs[0], decode) == s;
      forall i | 0 <= i < |evs[1..]| ensures Superseded(s, evs[1..][i]) {
        assert evs[1..][i] == evs[i + 1];
      }
      SupersededEventsIgnored(s, evs[1..], decode);
    }
  }

  /**
   * An event from work started before `s`: the result or error of any fetch
   * issued so far, the live one included, or the firing of any timer armed so
   * far, the pending one included.
   */
  predicate StartedBefore(s: DocState, ev: Event) {
    match ev
    case FetchDelivered(token, _) => token < s.nextFetchToken
    case FetchErrored(token) => token < s.nextFetchToken
    case TimerFired(gen, _) => gen < s.nextTimerGen
    case _ => false
  }

  /**
   * Supersession: once the background is changed to a url, the result or
   * error of every fetch started earlier (the one that was live too) and the
   * firing of every timer armed earlier (the one that was pending too) are
   * ignored, whatever order they arrive in; only the new fetch can settle
   * image and status.
   */
  lemma UrlChangeSupersedesEarlierWork(s: DocState, b: Background, evs: seq<Event>, decode: Decoder)
    requires b.Url? && b != s.emojiArt.background
    requires forall i :: 0 <= i < |evs| ==> StartedBefore(s, evs[i])
    ensures var t := OnSetBackground(s, b, decode);
      Run(t, evs, decode) == t && t.fetch == Some(Subscription(s.nextFetchToken, b.url))
  {
    var t := OnSetBackground(s, b, decode);
    forall i | 0 <= i < |evs| ensures Superseded(t, evs[i]) {
      assert StartedBefore(s, evs[i]);
    }
    SupersededEventsIgnored(t, evs, decode);
  }

  /**
   * Whichever returns first, the new fetch's outcome or work started before
   * the url change, the earlier work cannot overwrite it: once the new fetch
   * has delivered, every earlier fetch result, error and timer firing is
   * ignored.
   */
  lemma NewOutcomeNotOverwritten(s: DocState, b: Background, data: Data, evs: seq<Event>, decode: Decoder)
    requires b.Url? && b != s.emojiArt.background
    requires forall i :: 0 <= i < |evs| ==> StartedBefore(s, evs[i])
    ensures var t := OnSetBackground(s, b, decode);
      var u := OnFetchDelivered(t, s.nextFetchToken, data, decode);
      Run(u, evs, decode) == u && u.backgroundImage == decode(data)
  {
    var t := OnSetBackground(s, b, decode);
    var u := OnFetchDelivered(t, s.nextFetchToken, data, decode);
    forall i | 0 <= i < |evs| ensures Superseded(u, evs[i]) {
      assert StartedBefore(s, evs[i]);
    }
    SupersededEventsIgnored(u, evs, decode);
  }

  /**
   * The code as written: `.imageData` does not cancel an older url fetch nor
   * reset `.fetching`, so that fetch can still deliver and replace the image
   * decoded from the inline bytes.
   */
  lemma StaleUrlFetchReplacesInlineImage(s: DocState, d: Data, data: Data, decode: Decoder)
    requires Inv(s) && s.fetch.Some? && ImageData(d) != s.emojiArt.background
    ensures var t := OnSetBackground(s, ImageData(d), decode);
      t.backgroundImage == decode(d) && t.fetchStatus == Fetching && t.fetch == s.fetch
    ensures var t := OnSetBackground(s, ImageData(d), decode);
      var u := OnFetchDelivered(t, s.fetch.value.token, data, decode);
      u.emojiArt.background == ImageData(d) && u.backgroundImage == decode(data)
  {
  }

  /** An edit that always assigns the document. */
  predicate IsEdit(ev: Event) {
    ev.SetBackground? || ev.AddEmoji?
  }

  /** Any of the four intents; moving or scaling an absent emoji assigns nothing. */
  predicate IsIntent(ev: Event) {
    ev.SetBackground? || ev.AddEmoji? || ev.MoveEmoji? || ev.ScaleEmoji?
  }

  /** A timer is pending and it is the last one armed. */
  predicate PendingIsLatest(s: DocState) {
    s.nextTimerGen > 0 && s.autoSaveTimer == Some(s.nextTimerGen - 1)
  }

  /**
   * One intent after the last armed timer: the pending timer is again the
   * last one armed and nothing is saved; an edit arms exactly one timer.
   */
  lemma IntentKeepsLatestPending(s: DocState, ev: Event, decode: Decoder)
    requires IsIntent(ev) && PendingIsLatest(s)
    ensures var t := Step(s, ev, decode);
      PendingIsLatest(t) && t.saves == s.saves && t.nextTimerGen >= s.nextTimerGen
    ensures IsEdit(ev) ==> Step(s, ev, decode).nextTimerGen == s.nextTimerGen + 1
  {
    match ev {
      case MoveEmoji(e, w, h) =>
        var k := IndexMatching(s.emojiArt.emojis, e);
        if k.Some? {
          MoveEmojiEffect(s, e, w, h, decode, k.value);
        }
      case ScaleEmoji(e, scale) =>
        var k := IndexMatching(s.emojiArt.emojis, e);
        if k.Some? {
          ScaleEmojiEffect(s, e, scale, decode, k.value);
        }
      case _ =>
    }
  }

  /** A run of intents after the last armed timer keeps it the pending one and saves nothing. */
  lemma {:induction false} IntentRunKeepsLatestPending(s: DocState, evs: seq<Event>, decode: Decoder)
    requires PendingIsLatest(s) && forall i :: 0 <= i < |evs| ==> IsIntent(evs[i])
    ensures var t := Run(s, evs, decode);
      PendingIsLatest(t) && t.saves == s.saves && t.nextTimerGen >= s.nextTimerGen
    ensures (forall i :: 0 <= i < |evs| ==> IsEdit(evs[i])) ==>
      Run(s, evs, decode).nextTimerGen == s.nextTimerGen + |evs|
    decreases |evs|
  {
    if |evs| > 0 {
      IntentKeepsLatestPending(s, evs[0], decode);
      forall i | 0 <= i < |evs[1..]| ensures IsIntent(evs[1..][i]) && (IsEdit(evs[i + 1]) ==> IsEdit(evs[1..][i])) {
        assert evs[1..][i] == evs[i + 1];
      }
      IntentRunKeepsLatestPending(Step(s, evs[0], decode), evs[1..], decode);
    }
  }

  /**
   * Debounced autosave: after a burst of intents that starts with an edit,
   * only the timer armed last is pending, every earlier timer is stale,
   * nothing was saved during the burst, and the one timer that can fire
   * saves the final document. A burst of edits only arms one timer per edit.
   */
  lemma BurstLeavesOneSavePending(s: DocState, evs: seq<Event>, decode: Decoder)
    requires |evs| > 0 && IsEdit(evs[0])
    requires forall i :: 0 <= i < |evs| ==> IsIntent(evs[i])
    ensures var t := Run(s, evs, decode);
      t.nextTimerGen > s.nextTimerGen && t.autoSaveTimer == Some(t.nextTimerGen - 1) &&
      t.saves == s.saves
    ensures var t := Run(s, evs, decode);
      t.nextTimerGen > 0 &&
      OnTimerFired(t, t.nextTimerGen - 1, true).saves == s.saves + [t.emojiArt]
    ensures var t := Run(s, evs, decode);
      forall g: nat, ok :: g + 1 != t.nextTimerGen ==> OnTimerFired(t, g, ok) == t
    ensures (forall i :: 0 <= i < |evs| ==> IsEdit(evs[i])) ==>
      Run(s, evs, decode).nextTimerGen == s.nextTimerGen + |evs|
  {
    var s1 := Step(s, evs[0], decode);
    assert s1.nextTimerGen == s.nextTimerGen + 1 && s1.autoSaveTimer == Some(s.nextTimerGen) && s1.saves == s.saves;
    forall i | 0 <= i < |evs[1..]| ensures IsIntent(evs[1..][i]) && (IsEdit(evs[i + 1]) ==> IsEdit(evs[1..][i])) {
      assert evs[1..][i] == evs[i + 1];
    }
    IntentRunKeepsLatestPending(s1, evs[1..], decode);
    assert Run(s, evs, decode) == Run(s1, evs[1..], decode);
  }

  /**
   * The sample session: two emojis added, the second moved by (10, 10), the
   * first scaled by 2; ids and draw order are kept.
   */
  lemma SampleSession(decode: Decoder)
    ensures var s0 := Fresh(EmptyModel());
      var s1 := OnAddEmoji(s0, "😀", -200, -100, 80.0, 1, decode);
      var s2 := OnAddEmoji(s1, "😷", 50, 100, 40.0, 2, decode);
      var s3 := OnMoveEmoji(s2, Emoji("😷", 50, 100, 40, 2), 10.0, 10.0, decode);
      var s4 := OnScaleEmoji(s3, Emoji("😀", -200, -100, 80, 1), 2.0, decode);
      s4.emojiArt == Model(Blank, [Emoji("😀", -200, -100, 160, 1), Emoji("😷", 60, 110, 40, 2)])
  {
  }
}
