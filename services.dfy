/**
 * The collaborators the core calls but that are not part of this model,
 * passed in as functions: hashing, Base64, JSON and XML parsing, the
 * timestamp parser, and the download itself.
 */
module Services {
  import opened Wrappers
  import opened JsonTree

  /**
   * The texts `_processTopMediaType` reads from an item feed: the item title,
   * `app:stand`, `app:duration`, the description (item level, else channel
   * level, as ElementTree's `or` decides), `mp:image/mp:data` and
   * `app:playerMediaCollection`. Each is JStr(text), or JNull for an element
   * without text.
   */
  datatype FeedItem = FeedItem(
    title: Json,
    stand: Json,
    duration: Json,
    description: Json,
    image: Json,
    mediaCollection: Json)

  datatype Platform = Platform(
    dataPath: string,                        // settings.getDatapath()
    digest: string -> string,                // hashlib.md5(url.encode()).hexdigest()
    encode: string -> string,                // b64encode of a text
    decode: string -> Option<string>,        // b64decode; None where it raises
    loads: string -> Option<Json>,           // json.loads; None where it raises
    fetch: string -> Option<string>,         // download and UTF-8 decode; None where it raises
    readFeedItem: string -> Option<FeedItem>, // parse the feed and find its elements; None where it raises
    epochOf: string -> Option<int>)          // epoch_from_timestamp(s, '%Y-%m-%dT%H:%M:%S %z')

  /** The property the cache relies on: decoding what was encoded gives the text back. */
  ghost predicate Base64RoundTrips(p: Platform) {
    forall s :: p.decode(p.encode(s)) == Some(s)
  }
}
