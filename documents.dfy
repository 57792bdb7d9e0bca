/**
 * What the pipeline writes into the vector store and reads back from it.
 * The store itself (FAISS and the embedding model behind it) is foreign: a
 * built store is represented by the documents it was built from, and its
 * similarity search is a parameter of the operations that query it.
 */
module Documents {
  import opened Wrappers

  /** A valid track reduced to the values the pipeline keeps: its name, first artist and link. */
  datatype TrackInfo = TrackInfo(name: Option<string>, artist: Option<string>, url: Option<string>)

  /** The metadata of one stored song: the keys Song_Name, Artist and Song_URL. */
  datatype Metadata = Metadata(songName: Option<string>, artist: Option<string>, songUrl: Option<string>)

  /** A LangChain document: the vibe description to embed, and the song it describes. */
  datatype Document = Document(pageContent: string, metadata: Metadata)

  /** A FAISS store built from these documents. */
  datatype Store = Store(documents: seq<Document>)

  /** One pair of `similarity_search_with_score`: a stored song and its L2 distance (lower is closer). */
  datatype Hit = Hit(metadata: Metadata, score: real)

  /**
   * `store.similarity_search_with_score(query, k=k)`: the hits in the order the
   * store returns them, or the exception raised while embedding the query.
   */
  type Search = (Store, string, nat) -> Outcome<seq<Hit>>

  /** Both search paths ask the store for this many results. */
  const TopK: nat := 5

  /** A search that, like FAISS, never returns more results than were asked for. */
  ghost predicate RespectsLimit(search: Search) {
    forall store, query, k :: search(store, query, k).Returned? ==> |search(store, query, k).value| <= k
  }

  /** One recommended song as both front ends report it: the stored song's name, artist, link and distance. */
  datatype Song = Song(name: Option<string>, artist: Option<string>, url: Option<string>, score: real)

  function SongOf(hit: Hit): Song {
    Song(hit.metadata.songName, hit.metadata.artist, hit.metadata.songUrl, hit.score)
  }

  /** The songs reported for the search results, one per result in result order. */
  function Songs(hits: seq<Hit>): seq<Song> {
    seq(|hits|, k requires 0 <= k < |hits| => SongOf(hits[k]))
  }
}
