/**
 * The FastAPI backend of api.py: the in-memory application state holding the
 * current playlist's store, the `/ingest` endpoint that rebuilds it, and the
 * `/search` endpoint that composes a query from an optional image and text.
 * The upload, the vision model and the store's similarity search are foreign:
 * the vision model's text is a parameter (None when reading the upload, opening
 * the image or the call raised), and so is the search.
 */
module Api {
  import opened Wrappers
  import opened Text
  import opened Documents
  import opened Catalog
  import opened Generator
  import opened Services

  /** An `HTTPException` as the client receives it. */
  datatype HttpError = HttpError(statusCode: nat, detail: string)

  datatype IngestBody = IngestBody(status: string, message: string)

  datatype SearchBody = SearchBody(vibeAnalysis: string, songs: seq<Song>)

  /** The body of a successful answer, or the HTTP error raised instead. */
  datatype Response<T> = Ok(body: T) | Rejected(error: HttpError)

  const NoStoreBuilt: string := "Could not build vector store. Check logs."
  const NoPlaylistLoaded: string := "No playlist loaded. Please sync a playlist first."
  const NoQuery: string := "Please provide text or an image."
  /** The body of the 500 answer to an exception that escapes an endpoint. */
  const InternalServerError: string := "Internal Server Error"
  const IngestSucceeded: IngestBody := IngestBody("success", "Playlist processed successfully")

  /** `str(e)` of an `HTTPException`: its status code, a colon and its detail. */
  function ExceptionText(e: HttpError): string {
    NatToString(e.statusCode) + ": " + e.detail
  }

  /**
   * The answer to `/ingest` for the outcome of the build. Every failure reaches
   * the client as a 500: the 400 raised for a missing store is raised inside
   * the `try` and caught again by the generic handler.
   */
  function IngestReply(built: Outcome<Option<Store>>): (r: Response<IngestBody>)
    ensures r.Ok? <==> built.Returned? && built.value.Some?
    ensures r.Rejected? ==> r.error.statusCode == 500
    ensures built.Raised? ==> r.error.detail == built.message
    ensures built == Returned(None) ==> r.error.detail == "400: " + NoStoreBuilt
  {
    match built
    case Raised(m) => Rejected(HttpError(500, m))
    case Returned(None) => Rejected(HttpError(500, ExceptionText(HttpError(400, NoStoreBuilt))))
    case Returned(Some(_)) => Ok(IngestSucceeded)
  }

  /** A store returned by the build holds at least one document, so `not store` is false for it. */
  lemma BuiltStoreIsNonEmpty(token: Option<string>, replies: seq<Reply>, model: Model, parse: Parser, embedError: Option<string>)
    requires CanBuild(token, replies)
    requires Build(token, replies, model, parse, embedError).Returned?
    requires Build(token, replies, model, parse, embedError).value.Some?
    ensures Build(token, replies, model, parse, embedError).value.value.documents != []
  {
  }

  /** `image_description`: the vision model's text when a file came and the call succeeded, else "". */
  function ImageDescription(file: bool, vision: Option<string>): string {
    if file && vision.Some? then vision.value else ""
  }

  /** `f"{image_description} {text if text else ''}".strip()`. */
  function ComposeQuery(imageDescription: string, text: Option<string>): string {
    Strip(imageDescription + " " + (if Truthy(text) then text.value else ""))
  }

  /** The query is empty exactly when the image description and the text are both blank. */
  lemma ComposeQueryEmpty(imageDescription: string, text: Option<string>)
    ensures ComposeQuery(imageDescription, text) == [] <==>
              AllSpace(imageDescription) && (Truthy(text) ==> AllSpace(text.value))
  {
    var t := if Truthy(text) then text.value else "";
    AllSpaceConcat(imageDescription, " " + t);
    AllSpaceConcat(" ", t);
    assert imageDescription + " " + t == imageDescription + (" " + t);
  }

  /** Without an image description the query is the stripped text alone. */
  lemma ComposeQueryTextOnly(text: string)
    ensures ComposeQuery("", Some(text)) == Strip(text)
  {
    StripSkipsLeadingSpace(' ', text);
    assert "" + " " + text == [' '] + text;
  }

  /** The answer to `/search` once a store is loaded. */
  function SearchReply(store: Store, imageDescription: string, text: Option<string>, search: Search): Response<SearchBody> {
    var query := ComposeQuery(imageDescription, text);
    if query == [] then Rejected(HttpError(400, NoQuery))
    else match search(store, query, TopK)
      case Raised(_) => Rejected(HttpError(500, InternalServerError))
      case Returned(hits) => Ok(SearchBody(query, Songs(hits)))
  }

  /**
   * A blank query is a 400 and no search runs; a search that raises is a 500.
   * A successful search reports the query it ran, which is non-blank and
   * stripped, with one song per result in result order; a search that keeps to
   * its limit yields at most five songs.
   */
  lemma SearchReplyReportsQuery(store: Store, imageDescription: string, text: Option<string>, search: Search)
    ensures var q := ComposeQuery(imageDescription, text);
            SearchReply(store, imageDescription, text, search).Ok? <==> q != [] && search(store, q, TopK).Returned?
    ensures ComposeQuery(imageDescription, text) == [] ==>
              SearchReply(store, imageDescription, text, search) == Rejected(HttpError(400, NoQuery))
    ensures var q := ComposeQuery(imageDescription, text);
            q != [] && search(store, q, TopK).Raised? ==>
              SearchReply(store, imageDescription, text, search) == Rejected(HttpError(500, InternalServerError))
    ensures var r := SearchReply(store, imageDescription, text, search);
            r.Ok? ==> var q := r.body.vibeAnalysis;
                      q == ComposeQuery(imageDescription, text)
                      && q != [] && Trimmed(q) && search(store, q, TopK).Returned?
                      && |r.body.songs| == |search(store, q, TopK).value|
                      && (forall k :: 0 <= k < |r.body.songs| ==> r.body.songs[k] == SongOf(search(store, q, TopK).value[k]))
    ensures RespectsLimit(search) && SearchReply(store, imageDescription, text, search).Ok? ==>
              |SearchReply(store, imageDescription, text, search).body.songs| <= TopK
  {
    var q := ComposeQuery(imageDescription, text);
    if q != [] && search(store, q, TopK).Returned? {
      assert |search(store, q, TopK).value| <= TopK <== RespectsLimit(search);
    }
  }

  /** `APP_STATE`: the store of the playlist loaded last, if any. */
  class AppState {
    var vectorStore: Option<Store>

    /** A held store is never empty. */
    predicate Valid()
      reads this
    {
      vectorStore.Some? ==> vectorStore.value.documents != []
    }

    constructor()
      ensures Valid() && vectorStore == None
    {
      vectorStore := None;
    }

    /**
     * `ingest_playlist`: the store is replaced only when the build returns one;
     * on every failure the previous store stays and a 500 is raised.
     */
    method IngestPlaylist(playlistId: string, token: Option<string>, replies: seq<Reply>,
                          model: Model, parse: Parser, embedError: Option<string>)
      returns (response: Response<IngestBody>)
      requires Valid()
      requires CanBuild(token, replies)
      modifies this
      ensures Valid()
      ensures response == IngestReply(Build(token, replies, model, parse, embedError))
      ensures response.Ok? ==> vectorStore == Build(token, replies, model, parse, embedError).value
      ensures response.Rejected? ==> vectorStore == old(vectorStore)
    {
      var built, _ := BuildVectorStore(playlistId, token, replies, model, parse, embedError);
      if built.Raised? {
        return Rejected(HttpError(500, built.message));
      }
      if built.value.None? {
        var declined := HttpError(400, NoStoreBuilt);
        return Rejected(HttpError(500, ExceptionText(declined)));
      }
      BuiltStoreIsNonEmpty(token, replies, model, parse, embedError);
      vectorStore := built.value;
      response := Ok(IngestSucceeded);
    }

    /**
     * `search_vibe`. Without a store it answers 400 before touching the upload;
     * otherwise the upload is read exactly when one came, and the answer is
     * the search for the composed query, a 500 when the search raises. `file`
     * says whether a file was sent.
     */
    method SearchVibe(text: Option<string>, file: bool, vision: Option<string>, search: Search)
      returns (response: Response<SearchBody>, fileRead: bool)
      // A held store is non-empty, so `if not store` fails exactly when there is none.
      requires Valid()
      ensures vectorStore.None? ==> response == Rejected(HttpError(400, NoPlaylistLoaded)) && !fileRead
      ensures vectorStore.Some? ==>
                fileRead == file
                && response == SearchReply(vectorStore.value, ImageDescription(file, vision), text, search)
    {
      fileRead := false;
      if vectorStore.None? {
        return Rejected(HttpError(400, NoPlaylistLoaded)), fileRead;
      }
      var store := vectorStore.value;
      var imageDescription := "";
      if file {
        fileRead := true;
        if vision.Some? {
          imageDescription := vision.value;
        }
      }
      var query := Strip(imageDescription + " " + (if Truthy(text) then text.value else ""));
      if query == [] {
        return Rejected(HttpError(400, NoQuery)), fileRead;
      }
      var found := search(store, query, TopK);
      if found.Raised? {
        return Rejected(HttpError(500, InternalServerError)), fileRead;
      }
      var results := found.value;
      var songs: seq<Song> := [];
      for k := 0 to |results|
        invariant songs == Songs(results[..k])
      {
        songs := songs + [SongOf(results[k])];
      }
      assert results[..|results|] == results;
      response := Ok(SearchBody(query, songs));
    }
  }
}
