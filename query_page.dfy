/**
 * The search page of the Streamlit app (pages/query.py): the vibe description
 * of the uploaded image, the search for the submitted query and the session
 * fields it sets. The vision model and the store's similarity search are
 * foreign: `vision` is the model's reply for the current image, or the
 * exception it raised, and the search, which may raise too, is a parameter.
 */
module QueryPage {
  import opened Wrappers
  import opened Text
  import opened Documents
  import opened Session

  /**
   * `get_setting_description_from_image`: "" when there is no image, whatever
   * the model would say; otherwise the stripped reply, or the exception of the call.
   */
  function SettingDescription(photo: bool, vision: Outcome<string>): (r: Outcome<string>)
    ensures !photo ==> r == Returned("")
    ensures photo ==> (r.Raised? <==> vision.Raised?)
    ensures photo && vision.Raised? ==> r.message == vision.message
    ensures r.Returned? ==> Trimmed(r.value)
  {
    if !photo then Returned("")
    else match vision
      case Raised(m) => Raised(m)
      case Returned(text) => Returned(Strip(text))
  }

  /** A reply without surrounding whitespace survives unchanged into the setting description. */
  lemma TrimmedReplyKept(text: string)
    requires Trimmed(text)
    ensures SettingDescription(true, Returned(text)) == Returned(text)
  {
    StripKeepsTrimmed(text);
  }

  /** `" ".join([setting_description, text_input])`: no stripping. */
  function SubmittedQuery(description: string, text: string): string {
    Join(" ", [description, text])
  }

  /**
   * The submitted query is the description, one space and the text, so it is
   * never empty and both parts can be read back from it.
   */
  lemma SubmittedQueryKeepsParts(description: string, text: string)
    ensures SubmittedQuery(description, text) == description + " " + text
    ensures |SubmittedQuery(description, text)| == |description| + 1 + |text|
    ensures SubmittedQuery(description, text)[|description|] == ' '
    ensures SubmittedQuery(description, text)[..|description|] == description
    ensures SubmittedQuery(description, text)[|description| + 1..] == text
  {
    var parts := [description, text];
    assert Join(" ", parts) == parts[0] + " " + Join(" ", parts[1..]);
    assert Join(" ", parts[1..]) == text;
  }

  /**
   * `find_songs(setting_description)`. Without a store nothing changes; an
   * empty description clears the songs; otherwise the songs are the rows of
   * the five nearest results, in result order. A search that raises ends the
   * call with its exception and leaves the songs as they were.
   */
  method FindSongs(s: SessionState, description: string, search: Search)
    returns (raised: Option<string>)
    modifies s
    ensures old(s.vectorStore).None? ==> raised == None && unchanged(s)
    ensures old(s.vectorStore).Some? && description == [] ==> raised == None && s.topSongs == []
    ensures old(s.vectorStore).Some? && description != [] ==>
              var found := search(old(s.vectorStore).value, description, TopK);
              (found.Raised? ==> raised == Some(found.message) && unchanged(s))
              && (found.Returned? ==> raised == None && s.topSongs == Songs(found.value))
    ensures s.vectorStore == old(s.vectorStore) && s.currentPid == old(s.currentPid)
    ensures s.userFeedback == old(s.userFeedback) && s.pidInput == old(s.pidInput)
    ensures s.photoInput == old(s.photoInput) && s.textInput == old(s.textInput)
  {
    raised := None;
    var vectorStore := s.vectorStore;
    if vectorStore.None? {
      return;
    }
    if description == [] {
      s.topSongs := [];
      return;
    }
    var found := search(vectorStore.value, description, TopK);
    if found.Raised? {
      return Some(found.message);
    }
    var results := found.value;
    var topSongs: seq<Song> := [];
    for k := 0 to |results|
      invariant topSongs == Songs(results[..k])
    {
      topSongs := topSongs + [SongOf(results[k])];
    }
    assert results[..|results|] == results;
    s.topSongs := topSongs;
  }

  /** The rows of a search hold one song per result, in result order; at most five with a search that keeps to its limit. */
  lemma SongsFollowResults(store: Store, description: string, search: Search)
    requires search(store, description, TopK).Returned?
    ensures var hits := search(store, description, TopK).value;
            |Songs(hits)| == |hits|
    ensures var hits := search(store, description, TopK).value;
            forall k :: 0 <= k < |hits| ==>
              Songs(hits)[k].name == hits[k].metadata.songName
              && Songs(hits)[k].artist == hits[k].metadata.artist
              && Songs(hits)[k].url == hits[k].metadata.songUrl
              && Songs(hits)[k].score == hits[k].score
    ensures RespectsLimit(search) ==> |Songs(search(store, description, TopK).value)| <= TopK
  {
  }

  /**
   * `handle_submit`. With an image or some text, the feedback becomes the
   * joined query and the songs are searched for it, unless the vision call
   * raises, which leaves the session as it was. A search that raises does so
   * after the feedback was set: the new feedback stays beside the old songs.
   * With neither image nor text, no search runs and the feedback becomes None.
   */
  method HandleSubmit(s: SessionState, vision: Outcome<string>, search: Search)
    returns (raised: Option<string>)
    modifies s
    ensures !old(s.photoInput) && old(s.textInput) == [] ==>
              raised == None && s.userFeedback == None
              && s.topSongs == old(s.topSongs) && s.vectorStore == old(s.vectorStore)
    ensures (old(s.photoInput) || old(s.textInput) != []) && SettingDescription(old(s.photoInput), vision).Raised? ==>
              raised == Some(SettingDescription(old(s.photoInput), vision).message) && unchanged(s)
    ensures (old(s.photoInput) || old(s.textInput) != []) && SettingDescription(old(s.photoInput), vision).Returned? ==>
              var query := SubmittedQuery(SettingDescription(old(s.photoInput), vision).value, old(s.textInput));
              s.userFeedback == Some(query)
              && (old(s.vectorStore).None? ==> raised == None && s.topSongs == old(s.topSongs))
              && (old(s.vectorStore).Some? && search(old(s.vectorStore).value, query, TopK).Raised? ==>
                    raised == Some(search(old(s.vectorStore).value, query, TopK).message) && s.topSongs == old(s.topSongs))
              && (old(s.vectorStore).Some? && search(old(s.vectorStore).value, query, TopK).Returned? ==>
                    raised == None && s.topSongs == Songs(search(old(s.vectorStore).value, query, TopK).value))
    ensures s.vectorStore == old(s.vectorStore) && s.currentPid == old(s.currentPid)
    ensures s.pidInput == old(s.pidInput) && s.photoInput == old(s.photoInput) && s.textInput == old(s.textInput)
  {
    raised := None;
    if s.photoInput || s.textInput != [] {
      var settingDescription := SettingDescription(s.photoInput, vision);
      if settingDescription.Raised? {
        return Some(settingDescription.message);
      }
      var fullSearchQuery := Join(" ", [settingDescription.value, s.textInput]);
      s.userFeedback := Some(fullSearchQuery);
      SubmittedQueryKeepsParts(settingDescription.value, s.textInput);
      raised := FindSongs(s, fullSearchQuery, search);
    } else {
      s.userFeedback := None;
    }
  }
}
