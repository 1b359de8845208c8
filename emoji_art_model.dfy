/**
 * The document value: a background (the tagged union `EmojiArtModel.Background`
 * with its two partial accessors) and the ordered list of placed emojis.
 *
 * `EmojiArtModel.addEmoji` and `Array.index(matching:)` are not part of this
 * model's sources; `AddEmoji` and `IndexMatching` below give them the
 * behaviour the document controller relies on, and nothing more.
 */
module EmojiArtModel {
  import opened Wrappers

  newtype byte = x: int | 0 <= x < 256

  /** A URL, kept as its string form. */
  type URL = string

  /** Raw bytes (Foundation's `Data`). */
  type Data = seq<byte>

  /** The image source of the canvas: none, a remote reference, or inline bytes. */
  datatype Background = Blank | Url(url: URL) | ImageData(data: Data)

  /** The `url` computed property: the payload of a `.url`, nil for every other case. */
  function UrlOf(b: Background): (r: Option<URL>)
    ensures r.Some? <==> b.Url?
    ensures b.Url? ==> r == Some(b.url)
  {
    match b
    case Url(u) => Some(u)
    case _ => None
  }

  /** The `imageData` computed property: the payload of an `.imageData`, nil otherwise. */
  function ImageDataOf(b: Background): (r: Option<Data>)
    ensures r.Some? <==> b.ImageData?
    ensures b.ImageData? ==> r == Some(b.data)
  {
    match b
    case ImageData(d) => Some(d)
    case _ => None
  }

  /**
   * The `==` that Swift derives for `Background`: the same case and equal
   * payloads.
   */
  predicate SameBackground(a: Background, b: Background) {
    match (a, b)
    case (Blank, Blank) => true
    case (Url(u), Url(v)) => u == v
    case (ImageData(d), ImageData(e)) => d == e
    case _ => false
  }

  /** The derived equality is exactly the structural equality the model uses. */
  lemma SameBackgroundIsEquality(a: Background, b: Background)
    ensures SameBackground(a, b) <==> a == b
  {
  }

  /** For `.blank` both accessors are nil, and never are both accessors non-nil. */
  lemma AccessorsExclusive(b: Background)
    ensures b.Blank? ==> UrlOf(b).None? && ImageDataOf(b).None?
    ensures UrlOf(b).None? || ImageDataOf(b).None?
  {
  }

  /** The two accessors together determine the background: nothing is lost by reading them. */
  lemma AccessorsDetermineBackground(a: Background, b: Background)
    requires UrlOf(a) == UrlOf(b) && ImageDataOf(a) == ImageDataOf(b)
    ensures a == b
  {
  }

  /** A placed emoji; identity is its `id`, the other fields change over time. */
  datatype Emoji = Emoji(text: string, x: int, y: int, size: int, id: int)

  /** The persisted document: a background and emojis in draw order (later is on top). */
  datatype Model = Model(background: Background, emojis: seq<Emoji>)

  /** `EmojiArtModel()`: a fresh document, blank and empty. */
  function EmptyModel(): (m: Model)
    ensures m.background.Blank? && |m.emojis| == 0
  {
    Model(Blank, [])
  }

  /** No two emojis of a document share an id. */
  predicate UniqueIds(emojis: seq<Emoji>) {
    forall i, j :: 0 <= i < j < |emojis| ==> emojis[i].id != emojis[j].id
  }

  /** No emoji of the list carries the id. */
  predicate IdAbsent(emojis: seq<Emoji>, id: int) {
    forall i :: 0 <= i < |emojis| ==> emojis[i].id != id
  }

  /**
   * `EmojiArtModel.addEmoji(text, at: (x, y), size:)` under its assumed
   * contract: one new emoji, carrying the id `id` handed out by the model's id
   * source, goes on top of the others; the background is left alone.
   */
  function AddEmoji(m: Model, text: string, x: int, y: int, size: int, id: int): (r: Model)
    ensures r.background == m.background
    ensures |r.emojis| == |m.emojis| + 1 && r.emojis[..|m.emojis|] == m.emojis
    ensures r.emojis[|m.emojis|] == Emoji(text, x, y, size, id)
  {
    Model(m.background, m.emojis + [Emoji(text, x, y, size, id)])
  }

  /** Adding with an id no emoji carries keeps the ids unique. */
  lemma AddEmojiKeepsIdsUnique(m: Model, text: string, x: int, y: int, size: int, id: int)
    requires UniqueIds(m.emojis) && IdAbsent(m.emojis, id)
    ensures UniqueIds(AddEmoji(m, text, x, y, size, id).emojis)
  {
  }

  /**
   * `emojis.index(matching: e)`: the first index whose emoji has `e`'s id
   * (never compared by value), or nil when no emoji has it.
   */
  function IndexMatching(emojis: seq<Emoji>, e: Emoji): (r: Option<nat>)
    ensures r.None? <==> IdAbsent(emojis, e.id)
    ensures r.Some? ==> r.value < |emojis| && emojis[r.value].id == e.id
    ensures r.Some? ==> IdAbsent(emojis[..r.value], e.id)
  {
    if |emojis| == 0 then None
    else if emojis[0].id == e.id then Some(0)
    else
      match IndexMatching(emojis[1..], e)
      case None => None
      case Some(i) => Some(i + 1)
  }

  /** An emoji just added with a fresh id is found again at the top of the list. */
  lemma AddedEmojiIsFound(m: Model, text: string, x: int, y: int, size: int, id: int, e: Emoji)
    requires IdAbsent(m.emojis, id) && e.id == id
    ensures IndexMatching(AddEmoji(m, text, x, y, size, id).emojis, e) == Some(|m.emojis|)
  {
  }

  /** With unique ids, the index found is the only one carrying the id. */
  lemma IndexMatchingUnique(emojis: seq<Emoji>, e: Emoji, j: nat)
    requires UniqueIds(emojis) && j < |emojis| && emojis[j].id == e.id
    ensures IndexMatching(emojis, e) == Some(j)
  {
  }
}
