/** The message record kept per group conversation, and the small helpers
    that decide whether an optional field is "present" in the sense of
    Python truthiness (None and the empty list or string both count as
    absent). */
module Records {

  datatype Option<+T> = None | Some(value: T)

  /** One processed group message, as appended to the store.
      `timestamp` is seconds since the epoch (a float in the source).
      `embedding` is the text fingerprint, `imageHash` the image fingerprint. */
  datatype Record = Record(
    id: string,
    senderId: string,
    senderName: string,
    content: string,
    timestamp: real,
    embedding: Option<seq<real>>,
    hasImage: bool,
    cachedImage: Option<string>,
    imageHash: Option<string>)

  /** What the judgment prompt sees of a record: no fingerprints. */
  datatype ContextEntry = ContextEntry(senderName: string, content: string, timestamp: real)

  /** `msg.get("embedding")` is truthy. */
  predicate HasEmbedding(r: Record) {
    r.embedding.Some? && |r.embedding.value| > 0
  }

  /** The record's embedding, or [] when it has none. */
  function EmbeddingOf(r: Record): (e: seq<real>)
    ensures HasEmbedding(r) <==> |e| > 0
  {
    if r.embedding.Some? then r.embedding.value else []
  }

  /** `msg.get("image_hash")` is truthy. */
  predicate HasImageHash(r: Record) {
    r.imageHash.Some? && |r.imageHash.value| > 0
  }

  /** The record's image hash, or "" when it has none. */
  function ImageHashOf(r: Record): (h: string)
    ensures HasImageHash(r) <==> |h| > 0
  {
    if r.imageHash.Some? then r.imageHash.value else ""
  }

  function Project(r: Record): ContextEntry {
    ContextEntry(r.senderName, r.content, r.timestamp)
  }

  /** Records in non-decreasing timestamp order. */
  ghost predicate SortedByTime(s: seq<Record>) {
    forall i, j :: 0 <= i < j < |s| ==> s[i].timestamp <= s[j].timestamp
  }
}
