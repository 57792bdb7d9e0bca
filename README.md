# Chroma-Tune in Dafny

Chroma-Tune recommends songs from a Spotify playlist that match the "vibe" of
a photo or a short text. Ingesting a playlist lists its tracks, asks a Gemini
model for a one-sentence setting description per song, and stores the
descriptions in an in-memory FAISS vector store with each song's name, artist
and link. Searching composes a query from an image description and the user's
text and reports the nearest stored songs.

This project models the deterministic bookkeeping of that pipeline in its
three variants:

- the backend services (`services.py`): pagination of the track listing,
  the numbered prompt, removal of code fences from the model's answer, the
  filter of valid tracks, batches of ten, the positional pairing of
  descriptions with tracks, and the build of the store;
- the FastAPI backend (`api.py`): the application state holding the store,
  `/ingest` and `/search`;
- the older Streamlit pages (`pages/ingest.py`, `pages/query.py`) over a
  shared session state.

The Spotify, Gemini and FAISS calls are foreign. Each is a parameter of the
operation that uses it: the access token and the chain of catalog replies,
the generator's reply per call and a JSON parser, the text and vision
models' replies, the embedding failure, and the similarity search. An
exception is an `Outcome.Raised` carrying the message `str(e)` would give.

Files: `wrappers.dfy` (Option, JSON member presence, outcomes, Python
truthiness), `text.dfy` (`str.strip`, `join`, `split`, decimal numbers),
`documents.dfy` (metadata, documents, the store, search hits and song rows),
`catalog.dfy`, `generator.dfy`, `services.dfy`, `api.dfy`, `session.dfy`,
`ingest_page.dfy`, `query_page.dfy`.

In `services.py` the description "Music by {artist}" is used only for a
result object without a `vibe` key. A failed generator call gives an empty
result list, and `zip` then pairs nothing, so the whole batch is dropped; a
short result list drops the tracks past its end. `Services.DocumentsCount`
states exactly when tracks are lost.

The similarity search embeds the query through a foreign call, which can
raise. In `api.py` the exception escapes `search_vibe`, and the client gets
a generic 500. In `pages/query.py` the feedback has already been set when
`find_songs` raises, so the session keeps the new feedback beside the old
songs.

## Model

| member | source | states |
|---|---|---|
| Text.Strip | services.py:68 | `str.strip()` returns the infix between leading and trailing whitespace; it is empty exactly when the input is all whitespace, and otherwise starts and ends with a non-space |
| Text.StripIsInfix | services.py:68 | what `strip()` removes is whitespace only: the result is the infix of the input after its leading whitespace, and everything before and after that infix is whitespace |
| Text.StripSkipsLeadingSpace | api.py:73 | a whitespace character in front of a text does not change its stripped form |
| Text.StripKeepsTrimmed | pages/query.py:41 | a text that neither starts nor ends with whitespace is returned unchanged by `strip()` |
| Text.StripIdempotent | api.py:73 | stripping twice gives the same text as stripping once |
| Text.SplitJoin | services.py:50 | joining lines without a newline by "\n" and splitting again returns the lines |
| Text.ParseNatToString | services.py:50 | the decimal rendering of a song's number reads back as that number |
| Text.AllSpaceConcat | api.py:73-74 | a concatenation is blank exactly when both parts are |
| Catalog.FetchPlaylistTracks | services.py:27-40 | without a truthy token nothing is requested and the result is []; otherwise the result is the outcome of following the pages and the requested URLs are the tracks endpoint followed by the `next` links |
| Catalog.RequestsFollowNextLinks | services.py:31-39 | one request per page up to the first page without a truthy `next`; the first goes to the playlist URL, each later one to the previous page's `next` |
| Catalog.PagesCollectsInOrder | services.py:35-40 | the result is the in-order concatenation of the pages' items up to the stopping page, and an exception exactly when that page cannot be read |
| Catalog.PagesIgnoresLaterReplies | services.py:35-39 | replies after the stopping page do not influence the result |
| Catalog.ErrorPageKeepsEarlierItems | services.py:37-39 | an error object (no `items`, no `next`) ends the loop with the earlier pages' items |
| Generator.PromptListsEverySong | services.py:50 | the song list has one line per song, in batch order, reading "k. name by artist" with k from 1 |
| Generator.RemoveFencesLeavesNoFence | services.py:68 | after removing "```json" and "```" left to right, no "```" remains, not even one the removal joined up |
| Generator.RemoveFencesKeepsClean | services.py:68 | a text without fences is left unchanged |
| Generator.Clean | services.py:68 | the text handed to `json.loads` has no fence and no surrounding whitespace |
| Generator.CleanIdempotent | services.py:68 | cleaning a cleaned text changes nothing |
| Generator.Descriptions | services.py:66-72 | a failed call gives []; a non-empty result is exactly what the parser read from the cleaned answer |
| Services.CollectValidTracks | services.py:79-87 | the loop's list equals the filtered, reduced listing |
| Services.ValidTracksAppend | services.py:80-87 | filtering distributes over concatenation, so listing order is kept |
| Services.ValidTracksMembers | services.py:80-87 | a track is valid exactly when some item is truthy, holds a truthy track and reduces to it; there are no more valid tracks than items |
| Services.BatchesPartition | services.py:93-96 | the batches concatenate to the valid tracks; each holds 1 to 10 tracks and all but the last hold exactly 10 |
| Services.ZipBatch | services.py:103-114 | one document per pair of `zip(batch, results)`, as many as the shorter list, with the result's `vibe` or "Music by {artist}" and the track's metadata |
| Services.DocumentsCount | services.py:95-114 | documents never outnumber valid tracks, and equal them exactly when every call answered with at least as many results as its batch has tracks |
| Services.DocumentsPairTracksInOrder | services.py:95-114 | when every call answered in full, the k-th document carries the k-th track's metadata |
| Services.DescribeInBatches | services.py:93-114 | the batch loop over `range(0, n, 10)` makes the b-th generator call with the b-th batch's prompt and its documents are those of pairing each batch with its call's results, batch after batch |
| Services.OneDocumentPerValidTrack | services.py:79-114 | when every call answered in full, there is one document per valid track, in listing order |
| Services.BuildVectorStore | services.py:74-128 | the outcome is the build's; None exactly when the fetch succeeded and no document was made; the b-th generator call receives the b-th batch's prompt |
| Api.IngestReply | api.py:39-49 | success exactly when the build returned a store; every failure is a 500, carrying the exception text, and a missing store reports "400: Could not build vector store. Check logs." |
| Api.BuiltStoreIsNonEmpty | services.py:118-119 | a store returned by the build holds at least one document |
| Api.ComposeQueryEmpty | api.py:73-75 | the query is empty exactly when the image description and the text are both blank |
| Api.ComposeQueryTextOnly | api.py:61-73 | without an image description (none sent, or the vision call failed) the query is the stripped text |
| Api.SearchReplyReportsQuery | api.py:73-92 | a search succeeds exactly when the query is non-blank and the similarity search returns; a blank query is a 400, a raising search a 500 "Internal Server Error"; a success reports the composed, stripped query and lists one song per result of the search for that query, in result order, at most five with a search that keeps to its limit |
| Api.AppState.constructor | api.py:27 | the application starts without a store |
| Api.AppState.IngestPlaylist | api.py:36-49 | the store is replaced by the built one only on success; on every failure it is unchanged and the answer is `IngestReply` of the build |
| Api.AppState.SearchVibe | api.py:51-92 | without a store the answer is 400 "No playlist loaded..." and the upload is not read; otherwise the upload is read exactly when sent and the answer is the search for the composed query, a 500 when the search raises; the song list built by the loop is one row per hit in order |
| Session.SessionState.constructor | utils/connect.py:54-59 | a fresh session has no store or playlist id, as the connection set-up of utils/connect.py:54-59 leaves them, and no songs and empty feedback, as pages/query.py:18-22 initialises them |
| IngestPage.MissingNamesDefault | pages/ingest.py:88-90 | a missing name becomes "Unknown Song", a missing artist or first-artist name "Unknown Artist", null stays None; a link comes from `external_urls.spotify` |
| IngestPage.KeptSongsHaveLinks | pages/ingest.py:83-94 | every kept song has a truthy link, and there are no more kept songs than items |
| IngestPage.PageDocumentsSucceed | pages/ingest.py:81-108 | the documents are built exactly when the text model answers for every kept item |
| IngestPage.PageDocumentsFollowKeptSongs | pages/ingest.py:81-108 | one document per kept item, in listing order, with that song's metadata |
| IngestPage.PageDocumentsStripped | pages/ingest.py:63 | every description is a stripped reply |
| IngestPage.RaisedPrefixRaises | pages/ingest.py:99 | the first description call that raises ends the page with its exception |
| IngestPage.LoadedStoreHoldsKeptSongs | pages/ingest.py:70-120 | a store is loaded exactly when some item is kept, every kept item is described and the embedding succeeds, and then holds one document per kept song in order |
| IngestPage.LoadTracksToFaiss | pages/ingest.py:65-125 | only a load that builds a store changes the session, setting the store and the playlist id; a failed or empty fetch, no kept item or a crash leave it unchanged |
| IngestPage.ClearPlaylist | pages/ingest.py:127-132 | the store and the playlist id become None and nothing else changes |
| IngestPage.RequestedIdBlank | pages/ingest.py:136-137 | the requested id is empty exactly when the input is missing or blank, and is stripped otherwise |
| IngestPage.LoadPlaylist | pages/ingest.py:134-140 | a blank id changes nothing; otherwise the playlist with the stripped id is loaded |
| QueryPage.SettingDescription | pages/query.py:25-41 | without an image the description is "" whatever the model would say; otherwise the stripped reply, or the call's exception |
| QueryPage.TrimmedReplyKept | pages/query.py:41 | a reply without surrounding whitespace is used as it is |
| QueryPage.SubmittedQueryKeepsParts | pages/query.py:79 | the submitted query is the description, one space and the text, unstripped, so it is never empty |
| QueryPage.FindSongs | pages/query.py:43-70 | without a store nothing changes; an empty description clears the songs; otherwise the songs are the rows of the five nearest results in result order; a search that raises ends the call with its exception and changes nothing; no other field changes |
| QueryPage.SongsFollowResults | pages/query.py:57-68 | for a search that returns, one row per result, in result order, copying name, artist, link and score |
| QueryPage.HandleSubmit | pages/query.py:72-84 | with an image or text the feedback becomes the joined query and the songs are searched for it, unless the vision call raises, which changes nothing; a search that raises leaves the new feedback beside the old songs; with neither, the feedback becomes None and nothing is searched |

## Left out

- The Spotify token exchange and HTTP requests (`get_spotify_token`, `get_spotify_auth_token`, `get_tracks_from_spotify`): network I/O, replaced by the token, the chain of replies and the fetch result as parameters.
- Catalog.FetchPlaylistTracks: the reply chain must end within the replies given; an endless chain of `next` links is not modelled.
- The Gemini calls (text and vision) and `json.loads`: foreign; their replies and the parse are parameters. The parser only yields lists of string-keyed objects, so a model answer that parses to another JSON shape (crashing `result.get`) is not modelled.
- `FAISS.from_documents`, the embedding models and `similarity_search_with_score`: foreign; a store is the list of its documents, the search is a parameter that returns the hits or raises, and the float distances are `real`s passed through unchanged.
- `time.sleep`, logging with `print`, Streamlit rendering, progress bars, toasts, spinners, `st.rerun`, `st.stop` and the `@st.cache_data` decorators (the oracles are functions of their inputs, which is what the cache makes of them).
- FastAPI routing, CORS, uvicorn, reading the upload and PIL decoding: a sent file is a boolean, and any failure in reading, decoding or describing it is the vision reply None.
- The prompt text of `get_song_description` in pages/ingest.py: it only reaches the text model, whose reply is a parameter.
- The Streamlit page layout, including the playlist link button and its disabled state, and the display of results.
- Crashes on a kept track without `artists`, without a first artist, or without `external_urls` (services.py:85-86, and the null or empty cases of pages/ingest.py:89-90): stated as preconditions (`Services.CanBuild`, `IngestPage.AllListable`), not modelled as behaviour. A null `items` member of a page is modelled (it raises a TypeError).
- Items, tracks and artists that are JSON values of the wrong type (a string where an object is expected): the datatypes admit only objects or null.
- The React frontend (frontend/src/app/page.tsx, frontend/src/app/layout.tsx) and utils/connect.py (client construction and set-if-absent session keys) are not part of this model, apart from the None defaults of `vector_store` and `current_pid`, which the session constructor takes over.
