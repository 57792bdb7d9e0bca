/**
 * The playlist page of the Streamlit app (pages/ingest.py): reading the first
 * page of a playlist, one text-model call per listed song, and the session
 * update that makes the new store current. The catalog request is foreign:
 * `fetch(pid)` is what `get_tracks_from_spotify` returns (None when it failed).
 * The text model is foreign too: `describe` gives its reply, or the exception
 * it raised. `embedError` is the message of the exception `FAISS.from_documents`
 * raises, if it does.
 */
module IngestPage {
  import opened Wrappers
  import opened Text
  import opened Documents
  import opened Catalog
  import opened Session

  const UnknownSong: string := "Unknown Song"
  const UnknownArtist: string := "Unknown Artist"

  /** The text model's reply for a song name and artist name, or the exception it raised. */
  type Describe = (Option<string>, Option<string>) -> Outcome<string>

  /** `get_tracks_from_spotify(pid)`: the listed items, or None when the token or the request failed. */
  type Fetch = string -> Option<seq<Item>>

  /**
   * The page's reads of a track succeed: `artists`, when present, is a
   * non-empty list, and `external_urls`, when present, is an object.
   */
  predicate Describable(t: Track) {
    !t.artists.Null? && (t.artists.Value? ==> |t.artists.value| > 0) && !t.externalUrls.Null?
  }

  predicate Listable(item: Item) {
    item.HasTrack() ==> Describable(item.track.value)
  }

  predicate AllListable(items: seq<Item>) {
    forall i :: 0 <= i < |items| ==> Listable(items[i])
  }

  /** `track.get("name", "Unknown Song")`. */
  function SongName(t: Track): Option<string> {
    t.name.GetOr(UnknownSong)
  }

  /** `track.get('artists', [{}])[0].get('name', 'Unknown Artist')`. */
  function ArtistName(t: Track): Option<string>
    requires Describable(t)
  {
    if t.artists.Absent? then Some(UnknownArtist) else t.artists.value[0].name.GetOr(UnknownArtist)
  }

  /** `track.get('external_urls', {}).get('spotify')`. */
  function SongUrl(t: Track): Option<string>
    requires Describable(t)
  {
    if t.externalUrls.Absent? then None else t.externalUrls.value.spotify.Get()
  }

  /**
   * Missing names fall back to the defaults, JSON null stays None, and a
   * present name is kept as it is.
   */
  lemma MissingNamesDefault(t: Track)
    requires Describable(t)
    ensures t.name.Absent? ==> SongName(t) == Some(UnknownSong)
    ensures t.name.Null? ==> SongName(t) == None
    ensures t.name.Value? ==> SongName(t) == Some(t.name.value)
    ensures t.artists.Absent? || t.artists.value[0].name.Absent? ==> ArtistName(t) == Some(UnknownArtist)
    ensures t.artists.Value? && t.artists.value[0].name.Value? ==> ArtistName(t) == Some(t.artists.value[0].name.value)
    ensures SongUrl(t).Some? ==> t.externalUrls.Value? && t.externalUrls.value.spotify == Value(SongUrl(t).value)
  {
    if t.artists.Value? {
      var first := t.artists.value[0];
      assert ArtistName(t) == first.name.GetOr(UnknownArtist);
    }
  }

  /** The item yields a document: it holds a track, and the track has a truthy link. */
  predicate Kept(item: Item)
    requires Listable(item)
  {
    item.HasTrack() && Truthy(SongUrl(item.track.value))
  }

  function PageMetadata(t: Track): Metadata
    requires Describable(t)
  {
    Metadata(SongName(t), ArtistName(t), SongUrl(t))
  }

  /** The songs of the kept items, in listing order. */
  function KeptSongs(items: seq<Item>): seq<Metadata>
    requires AllListable(items)
  {
    if items == [] then []
    else
      var last := items[|items| - 1];
      KeptSongs(items[..|items| - 1]) + (if Kept(last) then [PageMetadata(last.track.value)] else [])
  }

  /** Every kept song has a link, and there are no more kept songs than items. */
  lemma {:induction false} KeptSongsHaveLinks(items: seq<Item>)
    requires AllListable(items)
    ensures |KeptSongs(items)| <= |items|
    ensures forall k :: 0 <= k < |KeptSongs(items)| ==> Truthy(KeptSongs(items)[k].songUrl)
  {
    if items != [] {
      KeptSongsHaveLinks(items[..|items| - 1]);
    }
  }

  /** The document of one kept track: the stripped reply, or the exception of the call. */
  function Described(t: Track, describe: Describe): Outcome<Document>
    requires Describable(t)
  {
    match describe(SongName(t), ArtistName(t))
    case Raised(m) => Raised(m)
    case Returned(text) => Returned(Document(Strip(text), PageMetadata(t)))
  }

  /** The documents of the listing; the first call that raises ends the page with its exception. */
  function PageDocuments(items: seq<Item>, describe: Describe): Outcome<seq<Document>>
    requires AllListable(items)
  {
    if items == [] then Returned([])
    else
      var last := items[|items| - 1];
      match PageDocuments(items[..|items| - 1], describe)
      case Raised(m) => Raised(m)
      case Returned(docs) =>
        if !Kept(last) then Returned(docs)
        else match Described(last.track.value, describe)
          case Raised(m) => Raised(m)
          case Returned(doc) => Returned(docs + [doc])
  }

  /** The text model answers for every kept item of the listing. */
  predicate AllDescribed(items: seq<Item>, describe: Describe)
    requires AllListable(items)
  {
    forall i :: 0 <= i < |items| && Kept(items[i]) ==>
      Described(items[i].track.value, describe).Returned?
  }

  /** The documents are built exactly when the text model answers for every kept item. */
  lemma {:induction false} PageDocumentsSucceed(items: seq<Item>, describe: Describe)
    requires AllListable(items)
    ensures PageDocuments(items, describe).Returned? <==> AllDescribed(items, describe)
  {
    if items != [] {
      var init := items[..|items| - 1];
      var last := items[|items| - 1];
      PageDocumentsSucceed(init, describe);
      assert AllDescribed(items, describe) <==>
             AllDescribed(init, describe) && (Kept(last) ==> Described(last.track.value, describe).Returned?) by {
        forall i | 0 <= i < |init|
          ensures init[i] == items[i]
        {
        }
      }
      assert PageDocuments(items, describe).Returned? <==>
             PageDocuments(init, describe).Returned?
             && (Kept(last) ==> Described(last.track.value, describe).Returned?);
    }
  }

  /** Built documents come one per kept item, in listing order, with that song's metadata. */
  lemma {:induction false} PageDocumentsFollowKeptSongs(items: seq<Item>, describe: Describe)
    requires AllListable(items)
    requires PageDocuments(items, describe).Returned?
    ensures |PageDocuments(items, describe).value| == |KeptSongs(items)|
    ensures forall k :: 0 <= k < |KeptSongs(items)| ==> PageDocuments(items, describe).value[k].metadata == KeptSongs(items)[k]
  {
    if items != [] {
      var init := items[..|items| - 1];
      var last := items[|items| - 1];
      assert PageDocuments(init, describe).Returned?;
      PageDocumentsFollowKeptSongs(init, describe);
      var prev := PageDocuments(init, describe).value;
      var docs := PageDocuments(items, describe).value;
      if Kept(last) {
        var doc := Described(last.track.value, describe).value;
        assert docs == prev + [doc];
        assert KeptSongs(items) == KeptSongs(init) + [PageMetadata(last.track.value)];
      } else {
        assert docs == prev;
        assert KeptSongs(items) == KeptSongs(init);
      }
    }
  }

  /** Every built document's description is a stripped reply: it neither starts nor ends with whitespace. */
  lemma {:induction false} PageDocumentsStripped(items: seq<Item>, describe: Describe)
    requires AllListable(items)
    requires PageDocuments(items, describe).Returned?
    ensures forall k :: 0 <= k < |PageDocuments(items, describe).value| ==>
              Trimmed(PageDocuments(items, describe).value[k].pageContent)
  {
    if items != [] {
      var init := items[..|items| - 1];
      assert PageDocuments(init, describe).Returned?;
      PageDocumentsStripped(init, describe);
    }
  }

  /** Once a prefix of the listing raises, the whole listing raises with the same exception. */
  lemma {:induction false} RaisedPrefixRaises(items: seq<Item>, n: nat, describe: Describe)
    requires AllListable(items) && n <= |items|
    requires PageDocuments(items[..n], describe).Raised?
    ensures PageDocuments(items, describe) == PageDocuments(items[..n], describe)
    decreases |items| - n
  {
    if n < |items| {
      var init := items[..|items| - 1];
      assert init[..n] == items[..n];
      RaisedPrefixRaises(init, n, describe);
    } else {
      assert items[..n] == items;
    }
  }

  /** How `load_tracks_to_faiss` ends. */
  datatype LoadStatus =
    | MissingId             // the stripped playlist id was empty
    | NoTracks              // the fetch failed or listed nothing
    | NoDocuments           // no item was kept
    | Crashed(message: string)
    | Loaded(documents: seq<Document>)

  /** The ending of `load_tracks_to_faiss` for a fetch result. */
  function LoadResult(fetched: Option<seq<Item>>, describe: Describe, embedError: Option<string>): LoadStatus
    requires fetched.Some? ==> AllListable(fetched.value)
  {
    if fetched.None? || fetched.value == [] then NoTracks
    else match PageDocuments(fetched.value, describe)
      case Raised(m) => Crashed(m)
      case Returned(docs) =>
        if docs == [] then NoDocuments
        else if embedError.Some? then Crashed(embedError.value)
        else Loaded(docs)
  }

  /**
   * A loaded store holds one document per kept item, in listing order, and it
   * is loaded whenever some item is kept, every kept item is described and the
   * embedding succeeds.
   */
  lemma LoadedStoreHoldsKeptSongs(items: seq<Item>, describe: Describe, embedError: Option<string>)
    requires AllListable(items)
    ensures LoadResult(Some(items), describe, embedError).Loaded? <==>
              KeptSongs(items) != [] && AllDescribed(items, describe) && embedError.None?
    ensures LoadResult(Some(items), describe, embedError).Loaded? ==>
              var docs := LoadResult(Some(items), describe, embedError).documents;
              |docs| == |KeptSongs(items)|
              && forall k :: 0 <= k < |docs| ==> docs[k].metadata == KeptSongs(items)[k]
  {
    PageDocumentsSucceed(items, describe);
    if PageDocuments(items, describe).Returned? {
      PageDocumentsFollowKeptSongs(items, describe);
    }
    if items == [] {
      assert KeptSongs(items) == [];
    }
  }

  /**
   * `load_tracks_to_faiss(new_playlist_id)`. Only a load that builds a store
   * changes the session, and then it sets both the store and the playlist id.
   */
  method LoadTracksToFaiss(s: SessionState, newPid: string, fetch: Fetch, describe: Describe,
                           embedError: Option<string>)
    returns (status: LoadStatus)
    requires fetch(newPid).Some? ==> AllListable(fetch(newPid).value)
    modifies s
    ensures status == LoadResult(fetch(newPid), describe, embedError)
    ensures status.Loaded? ==>
              s.vectorStore == Some(Store(status.documents)) && s.currentPid == Some(newPid)
              && s.topSongs == old(s.topSongs) && s.userFeedback == old(s.userFeedback)
              && s.pidInput == old(s.pidInput) && s.photoInput == old(s.photoInput)
              && s.textInput == old(s.textInput)
    ensures !status.Loaded? ==> unchanged(s)
  {
    var playlistTracks := fetch(newPid);
    if playlistTracks.None? || playlistTracks.value == [] {
      return NoTracks;
    }
    var items := playlistTracks.value;
    var documents: seq<Document> := [];
    assert items[..0] == [];
    for i := 0 to |items|
      invariant PageDocuments(items[..i], describe) == Returned(documents)
    {
      var item := items[i];
      assert items[..i + 1][..i] == items[..i] && items[..i + 1][i] == item;
      if !item.HasTrack() {
        continue;
      }
      var track := item.track.value;
      var songName := track.name.GetOr(UnknownSong);
      var artistName := if track.artists.Absent? then Some(UnknownArtist)
                        else track.artists.value[0].name.GetOr(UnknownArtist);
      var songUrl := if track.externalUrls.Absent? then None else track.externalUrls.value.spotify.Get();
      if !Truthy(songUrl) {
        continue;
      }
      var reply := describe(songName, artistName);
      if reply.Raised? {
        RaisedPrefixRaises(items, i + 1, describe);
        return Crashed(reply.message);
      }
      var metadata := Metadata(songName, artistName, songUrl);
      documents := documents + [Document(Strip(reply.value), metadata)];
    }
    assert items[..|items|] == items;
    if documents == [] {
      return NoDocuments;
    }
    if embedError.Some? {
      return Crashed(embedError.value);
    }
    s.vectorStore := Some(Store(documents));
    s.currentPid := Some(newPid);
    status := Loaded(documents);
  }

  /** `clear_playlist`: forgets the store and the playlist id, and nothing else. */
  method ClearPlaylist(s: SessionState)
    modifies s
    ensures s.vectorStore == None && s.currentPid == None
    ensures s.topSongs == old(s.topSongs) && s.userFeedback == old(s.userFeedback)
    ensures s.pidInput == old(s.pidInput) && s.photoInput == old(s.photoInput) && s.textInput == old(s.textInput)
  {
    s.vectorStore := None;
    s.currentPid := None;
  }

  /** `st.session_state.get("pid_input", "").strip()`. */
  function RequestedId(pidInput: Option<string>): string {
    Strip(if pidInput.Some? then pidInput.value else "")
  }

  /** The id is empty exactly when the input is missing or blank; otherwise it is stripped. */
  lemma RequestedIdBlank(pidInput: Option<string>)
    ensures RequestedId(pidInput) == [] <==> pidInput.None? || AllSpace(pidInput.value)
    ensures Trimmed(RequestedId(pidInput))
  {
  }

  /** `load_playlist`: loads the playlist named by the stripped input, if it is not empty. */
  method LoadPlaylist(s: SessionState, fetch: Fetch, describe: Describe, embedError: Option<string>)
    returns (status: LoadStatus)
    requires RequestedId(s.pidInput) != [] && fetch(RequestedId(s.pidInput)).Some? ==>
               AllListable(fetch(RequestedId(s.pidInput)).value)
    modifies s
    ensures RequestedId(old(s.pidInput)) == [] ==> status == MissingId && unchanged(s)
    ensures RequestedId(old(s.pidInput)) != [] ==>
              status == LoadResult(fetch(RequestedId(old(s.pidInput))), describe, embedError)
    ensures status.Loaded? ==>
              s.vectorStore == Some(Store(status.documents)) && s.currentPid == Some(RequestedId(old(s.pidInput)))
              && s.topSongs == old(s.topSongs) && s.userFeedback == old(s.userFeedback)
              && s.pidInput == old(s.pidInput) && s.photoInput == old(s.photoInput)
              && s.textInput == old(s.textInput)
    ensures !status.Loaded? ==> unchanged(s)
  {
    var newPlaylistId := Strip(if s.pidInput.Some? then s.pidInput.value else "");
    if newPlaylistId != [] {
      status := LoadTracksToFaiss(s, newPlaylistId, fetch, describe, embedError);
    } else {
      status := MissingId;
    }
  }
}
