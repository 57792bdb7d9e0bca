/**
 * The catalog side of services.py: the JSON shapes of a playlist's track
 * listing and `fetch_playlist_tracks`, which follows the listing's `next`
 * links page by page. The token exchange and the HTTP requests are foreign:
 * the token is a parameter, and so is the chain of replies the catalog gives,
 * in the order the requests are made.
 */
module Catalog {
  import opened Wrappers

  /** One element of a track's `artists` array. */
  datatype Artist = Artist(name: Field<string>)

  /** A track's `external_urls` object. */
  datatype ExternalUrls = ExternalUrls(spotify: Field<string>)

  /**
   * A track object. The members the pipeline reads are modelled; `otherKeys`
   * counts the rest, which matter only for whether the object is empty.
   */
  datatype Track = Track(name: Field<string>, artists: Field<seq<Artist>>,
                         externalUrls: Field<ExternalUrls>, otherKeys: nat)
  {
    /** Python truthiness of a dict: it is false only when it has no members. */
    predicate IsTruthy() {
      !name.Absent? || !artists.Absent? || !externalUrls.Absent? || otherKeys > 0
    }
  }

  /** One element of a page's `items` array: JSON null, or an object that may hold a `track`. */
  datatype Item = NullItem | Item(track: Field<Track>, otherKeys: nat)
  {
    predicate IsTruthy() {
      Item? && (!track.Absent? || otherKeys > 0)
    }

    /**
     * The item passes `item and item.get('track')` (services.py), which is the
     * same test as `not (not item or 'track' not in item or not item['track'])`
     * (pages/ingest.py): a truthy item whose `track` member is a non-empty object.
     */
    predicate HasTrack() {
      IsTruthy() && track.Value? && track.value.IsTruthy()
    }
  }

  /**
   * The catalog's answer to one page request: a JSON object with optional
   * `items` and `next` members, or a failure (`requests.get` or `res.json()`
   * raised). An HTTP error status still yields a JSON object, one without
   * `items` and `next`.
   */
  datatype Reply = JsonReply(items: Field<seq<Item>>, next: Field<string>) | Failed(message: string)

  /** The message of the TypeError `tracks.extend(None)` raises when `items` is null. */
  const NoneNotIterable: string := "'NoneType' object is not iterable"

  /** The first page requested for a playlist. */
  function TracksUrl(playlistId: string): string {
    "https://api.spotify.com/v1/playlists/" + playlistId + "/tracks"
  }

  /** The page is read without raising: `tracks.extend(data.get('items', []))` succeeds. */
  predicate Readable(r: Reply) {
    r.JsonReply? && !r.items.Null?
  }

  /** After this reply the loop requests another page: it was read and its `next` is truthy. */
  predicate Continues(r: Reply) {
    Readable(r) && r.next.Value? && r.next.value != ""
  }

  /** The replies given to the loop end the pagination: the last of them does not continue. */
  predicate ChainEnds(replies: seq<Reply>) {
    |replies| > 0 && !Continues(replies[|replies| - 1])
  }

  /** `data.get('items', [])` of a readable page. */
  function ItemsOf(r: Reply): seq<Item>
    requires Readable(r)
  {
    if r.items.Value? then r.items.value else []
  }

  /** The index of the reply after which the loop stops: the first one that does not continue. */
  function StopIndex(replies: seq<Reply>): (k: nat)
    requires ChainEnds(replies)
    ensures k < |replies| && !Continues(replies[k])
    ensures forall i :: 0 <= i < k ==> Continues(replies[i])
  {
    if !Continues(replies[0]) then 0
    else
      assert ChainEnds(replies[1..]) by {
        assert replies[1..][|replies| - 2] == replies[|replies| - 1];
      }
      1 + StopIndex(replies[1..])
  }

  /** Items collected ahead of what the remaining pages yield (an exception passes through). */
  function Prepend(collected: seq<Item>, rest: Outcome<seq<Item>>): Outcome<seq<Item>> {
    match rest
    case Returned(items) => Returned(collected + items)
    case Raised(m) => Raised(m)
  }

  lemma PrependTwice(a: seq<Item>, b: seq<Item>, rest: Outcome<seq<Item>>)
    ensures Prepend(a, Prepend(b, rest)) == Prepend(a + b, rest)
  {
    if rest.Returned? {
      assert a + (b + rest.value) == (a + b) + rest.value;
    }
  }

  lemma PrependNothing(rest: Outcome<seq<Item>>)
    ensures Prepend([], rest) == rest
  {
    if rest.Returned? {
      assert [] + rest.value == rest.value;
    }
  }

  /** What the pagination loop yields when the requests are answered by `replies` in turn. */
  function Pages(replies: seq<Reply>): Outcome<seq<Item>>
    requires ChainEnds(replies)
  {
    var r := replies[0];
    if r.Failed? then Raised(r.message)
    else if r.items.Null? then Raised(NoneNotIterable)
    else if Continues(r) then
      assert ChainEnds(replies[1..]) by {
        assert replies[1..][|replies| - 2] == replies[|replies| - 1];
      }
      Prepend(ItemsOf(r), Pages(replies[1..]))
    else Returned(ItemsOf(r))
  }

  /** The URLs the loop requests, starting from `url`. */
  function Requests(url: string, replies: seq<Reply>): seq<string>
    requires ChainEnds(replies)
    decreases |replies|
  {
    if Continues(replies[0]) then
      assert ChainEnds(replies[1..]) by {
        assert replies[1..][|replies| - 2] == replies[|replies| - 1];
      }
      [url] + Requests(replies[0].next.value, replies[1..])
    else [url]
  }

  /** The concatenation of the items of readable pages, in page order. */
  function Collected(replies: seq<Reply>): seq<Item>
    requires forall i :: 0 <= i < |replies| ==> Readable(replies[i])
  {
    if replies == [] then [] else ItemsOf(replies[0]) + Collected(replies[1..])
  }

  /**
   * `fetch_playlist_tracks`. Without a truthy token nothing is requested and
   * the result is empty. Otherwise the first request goes to the playlist's
   * tracks endpoint and each further one to the previous page's `next`, and
   * the items of the pages are accumulated until a page has no truthy `next`.
   */
  method FetchPlaylistTracks(playlistId: string, token: Option<string>, replies: seq<Reply>)
    returns (tracks: Outcome<seq<Item>>, requested: seq<string>)
    requires Truthy(token) ==> ChainEnds(replies)
    ensures !Truthy(token) ==> tracks == Returned([]) && requested == []
    ensures Truthy(token) ==> tracks == Pages(replies) && requested == Requests(TracksUrl(playlistId), replies)
  {
    if !Truthy(token) {
      return Returned([]), [];
    }
    var first := TracksUrl(playlistId);
    var url: Option<string> := Some(first);
    var collected: seq<Item> := [];
    var i := 0;
    requested := [];
    assert replies[0..] == replies;
    PrependNothing(Pages(replies));
    while Truthy(url)
      invariant i <= |replies|
      invariant Truthy(url) ==> i < |replies| && ChainEnds(replies[i..])
      invariant Truthy(url) ==> Pages(replies) == Prepend(collected, Pages(replies[i..]))
      invariant Truthy(url) ==> Requests(first, replies) == requested + Requests(url.value, replies[i..])
      invariant !Truthy(url) ==> Pages(replies) == Returned(collected)
      invariant !Truthy(url) ==> Requests(first, replies) == requested
      decreases |replies| - i
    {
      requested := requested + [url.value];
      var reply := replies[i];
      assert replies[i..][0] == reply;
      if reply.Failed? {
        return Raised(reply.message), requested;
      }
      if reply.items.Null? {
        return Raised(NoneNotIterable), requested;
      }
      if Continues(reply) {
        assert replies[i..][1..] == replies[i + 1..];
        assert replies[i + 1..][|replies| - i - 2] == replies[|replies| - 1];
        PrependTwice(collected, ItemsOf(reply), Pages(replies[i + 1..]));
      }
      collected := collected + ItemsOf(reply);
      url := reply.next.Get();
      i := i + 1;
    }
    tracks := Returned(collected);
  }

  /** The requests follow the `next` links, one request per page up to the stopping one. */
  lemma {:induction false} RequestsFollowNextLinks(url: string, replies: seq<Reply>)
    requires ChainEnds(replies)
    decreases |replies|
    ensures |Requests(url, replies)| == StopIndex(replies) + 1
    ensures Requests(url, replies)[0] == url
    ensures forall j :: 0 < j < |Requests(url, replies)| ==>
              Requests(url, replies)[j] == replies[j - 1].next.value
  {
    if Continues(replies[0]) {
      assert replies[1..][|replies| - 2] == replies[|replies| - 1];
      RequestsFollowNextLinks(replies[0].next.value, replies[1..]);
    }
  }

  /**
   * The result is the in-order concatenation of the items of the pages up to
   * the first one without a truthy `next`; it is an exception exactly when that
   * last page could not be read.
   */
  lemma {:induction false} PagesCollectsInOrder(replies: seq<Reply>)
    requires ChainEnds(replies)
    ensures Pages(replies).Returned? <==> Readable(replies[StopIndex(replies)])
    ensures Pages(replies).Returned? ==>
              Pages(replies).value == Collected(replies[..StopIndex(replies) + 1])
  {
    var k := StopIndex(replies);
    if Continues(replies[0]) {
      assert replies[1..][|replies| - 2] == replies[|replies| - 1];
      PagesCollectsInOrder(replies[1..]);
      assert replies[..k + 1][1..] == replies[1..][..k];
    } else {
      assert k == 0;
      if Readable(replies[0]) {
        assert replies[..1][1..] == [];
      }
    }
  }

  /** Replies after the stopping page are never consulted. */
  lemma {:induction false} PagesIgnoresLaterReplies(replies: seq<Reply>)
    requires ChainEnds(replies)
    ensures ChainEnds(replies[..StopIndex(replies) + 1])
    ensures Pages(replies) == Pages(replies[..StopIndex(replies) + 1])
  {
    var k := StopIndex(replies);
    if Continues(replies[0]) {
      assert replies[1..][|replies| - 2] == replies[|replies| - 1];
      PagesIgnoresLaterReplies(replies[1..]);
      assert replies[..k + 1][1..] == replies[1..][..k];
    }
  }

  /**
   * A page that comes back as an error object (no `items`, no `next`) ends the
   * pagination with what the earlier pages collected.
   */
  lemma ErrorPageKeepsEarlierItems(first: seq<Item>, next: string)
    requires next != ""
    ensures Pages([JsonReply(Value(first), Value(next)), JsonReply(Absent, Absent)]) == Returned(first)
  {
    var replies := [JsonReply(Value(first), Value(next)), JsonReply(Absent, Absent)];
    assert replies[1..] == [JsonReply(Absent, Absent)];
    assert first + [] == first;
  }
}
