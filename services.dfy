/**
 * `build_vector_store` of services.py: keep the items that hold a track,
 * reduce each to name, first artist and link, cut the result into batches of
 * ten, ask the generator for each batch's descriptions and pair them with the
 * batch's tracks by position, then build the store from the documents.
 * The generator's answer to the b-th call (counting from 0) is `model(b)`;
 * embedding and FAISS are foreign, and `embedError` is the message of the
 * exception `FAISS.from_documents` raises, if it does.
 */
module Services {
  import opened Wrappers
  import opened Documents
  import opened Catalog
  import opened Generator

  const BatchSize: nat := 10

  /** The generator's answer to each call, by call index (None when the call raised). */
  type Model = nat -> Option<string>

  function Min(a: int, b: int): int {
    if a <= b then a else b
  }

  /**
   * A kept track can be reduced without an exception: `t['artists'][0]['name']`
   * and `t['external_urls']['spotify']` find an object, an element and a member.
   */
  predicate Reducible(t: Track) {
    t.artists.Value? && |t.artists.value| > 0 && !t.artists.value[0].name.Absent?
    && t.externalUrls.Value? && !t.externalUrls.value.spotify.Absent?
  }

  predicate WellFormed(item: Item) {
    item.HasTrack() ==> Reducible(item.track.value)
  }

  predicate AllWellFormed(items: seq<Item>) {
    forall i :: 0 <= i < |items| ==> WellFormed(items[i])
  }

  /** The dict `{"name": t.get('name'), "artist": ..., "url": ...}` built for a kept track. */
  function Reduce(t: Track): TrackInfo
    requires Reducible(t)
  {
    TrackInfo(t.name.Get(), t.artists.value[0].name.Get(), t.externalUrls.value.spotify.Get())
  }

  /** What one item contributes to the valid tracks: its reduced track, or nothing. */
  function Keep(item: Item): seq<TrackInfo>
    requires WellFormed(item)
  {
    if item.HasTrack() then [Reduce(item.track.value)] else []
  }

  /** The valid tracks of a listing, item by item in listing order. */
  function ValidTracks(items: seq<Item>): seq<TrackInfo>
    requires AllWellFormed(items)
  {
    if items == [] then [] else ValidTracks(items[..|items| - 1]) + Keep(items[|items| - 1])
  }

  /** The first loop of `build_vector_store`. */
  method CollectValidTracks(items: seq<Item>) returns (valid: seq<TrackInfo>)
    requires AllWellFormed(items)
    ensures valid == ValidTracks(items)
  {
    valid := [];
    for i := 0 to |items|
      invariant valid == ValidTracks(items[..i])
    {
      assert items[..i + 1][..i] == items[..i];
      if items[i].HasTrack() {
        valid := valid + [Reduce(items[i].track.value)];
      }
    }
    assert items[..|items|] == items;
  }

  /** Filtering distributes over concatenation: the valid tracks keep listing order. */
  lemma {:induction false} ValidTracksAppend(a: seq<Item>, b: seq<Item>)
    requires AllWellFormed(a) && AllWellFormed(b)
    ensures AllWellFormed(a + b) && ValidTracks(a + b) == ValidTracks(a) + ValidTracks(b)
    decreases |b|
  {
    var ab := a + b;
    assert AllWellFormed(ab) by {
      forall i | 0 <= i < |ab|
        ensures WellFormed(ab[i])
      {
        if i < |a| {
          assert ab[i] == a[i];
        } else {
          assert ab[i] == b[i - |a|];
        }
      }
    }
    if b == [] {
      assert ab == a;
    } else {
      var init := b[..|b| - 1];
      var last := b[|b| - 1];
      ValidTracksAppend(a, init);
      assert ValidTracks(ab) == ValidTracks(a + init) + Keep(last) by {
        assert ab[..|ab| - 1] == a + init;
        assert ab[|ab| - 1] == last;
      }
      assert ValidTracks(b) == ValidTracks(init) + Keep(last);
    }
  }

  /**
   * A track is valid exactly when some item of the listing holds it: an item
   * that passes the filter and reduces to it.
   */
  lemma {:induction false} ValidTracksMembers(items: seq<Item>, t: TrackInfo)
    requires AllWellFormed(items)
    ensures |ValidTracks(items)| <= |items|
    ensures t in ValidTracks(items) <==>
              exists i :: 0 <= i < |items| && items[i].HasTrack() && Reduce(items[i].track.value) == t
  {
    if items != [] {
      var init := items[..|items| - 1];
      ValidTracksMembers(init, t);
      var last := |items| - 1;
      if t in ValidTracks(items) && t !in ValidTracks(init) {
        assert items[last].HasTrack() && Reduce(items[last].track.value) == t;
      }
      if exists i :: 0 <= i < |items| && items[i].HasTrack() && Reduce(items[i].track.value) == t {
        var i :| 0 <= i < |items| && items[i].HasTrack() && Reduce(items[i].track.value) == t;
        if i < last {
          assert init[i] == items[i];
        }
      }
    }
  }

  /** `ceil(n / 10)`: the number of generator calls for `n` valid tracks. */
  function NumBatches(n: nat): nat {
    (n + BatchSize - 1) / BatchSize
  }

  /** `valid_tracks[i : i + 10]` for the b-th value `i = 10 * b` of `range(0, n, 10)`. */
  function BatchAt(valid: seq<TrackInfo>, b: nat): seq<TrackInfo>
    requires b < NumBatches(|valid|)
  {
    valid[b * BatchSize..Min(b * BatchSize + BatchSize, |valid|)]
  }

  function Batches(valid: seq<TrackInfo>): seq<seq<TrackInfo>> {
    seq(NumBatches(|valid|), b requires 0 <= b < NumBatches(|valid|) => BatchAt(valid, b))
  }

  function Flatten(bs: seq<seq<TrackInfo>>): seq<TrackInfo> {
    if bs == [] then [] else bs[0] + Flatten(bs[1..])
  }

  /**
   * The batches cover the valid tracks in order: concatenated they give the
   * tracks back; each holds ten tracks except the last, which holds one to ten.
   */
  lemma {:induction false} BatchesPartition(valid: seq<TrackInfo>)
    ensures Flatten(Batches(valid)) == valid
    ensures forall b :: 0 <= b < |Batches(valid)| ==> 0 < |Batches(valid)[b]| <= BatchSize
    ensures forall b :: 0 <= b < |Batches(valid)| - 1 ==> |Batches(valid)[b]| == BatchSize
    decreases |valid|
  {
    var bs := Batches(valid);
    if |valid| == 0 {
      assert bs == [];
    } else if |valid| <= BatchSize {
      assert |bs| == 1 && bs[0] == valid[0..|valid|];
      assert Flatten(bs) == valid + Flatten([]);
    } else {
      var rest := valid[BatchSize..];
      BatchesPartition(rest);
      var rs := Batches(rest);
      assert |bs| == |rs| + 1;
      forall b | 0 <= b < |rs|
        ensures bs[b + 1] == rs[b]
      {
        assert bs[b + 1] == valid[(b + 1) * BatchSize..Min((b + 1) * BatchSize + BatchSize, |valid|)];
      }
      assert bs[1..] == rs;
      assert bs[0] == valid[..BatchSize];
      assert valid == valid[..BatchSize] + rest;
    }
  }

  /** The description of one paired track: the result's `vibe`, or "Music by {artist}" when that key is missing. */
  function Description(t: TrackInfo, result: VibeResult): string {
    if "vibe" in result then result["vibe"] else "Music by " + Show(t.artist)
  }

  function MetadataOf(t: TrackInfo): Metadata {
    Metadata(t.name, t.artist, t.url)
  }

  /** The documents of `zip(batch, results)`: pairs by position, as many as the shorter list. */
  function BatchDocuments(batch: seq<TrackInfo>, results: seq<VibeResult>): seq<Document> {
    seq(Min(|batch|, |results|),
        k requires 0 <= k < Min(|batch|, |results|) => Document(Description(batch[k], results[k]), MetadataOf(batch[k])))
  }

  /** The inner loop of `build_vector_store`: one document per pair of `zip(batch, results)`. */
  method ZipBatch(batch: seq<TrackInfo>, results: seq<VibeResult>) returns (docs: seq<Document>)
    ensures |docs| == Min(|batch|, |results|)
    ensures forall k :: 0 <= k < |docs| ==> docs[k].metadata == MetadataOf(batch[k])
    ensures forall k :: 0 <= k < |docs| ==>
              docs[k].pageContent == (if "vibe" in results[k] then results[k]["vibe"] else "Music by " + Show(batch[k].artist))
    ensures docs == BatchDocuments(batch, results)
  {
    docs := [];
    var k := 0;
    while k < |batch| && k < |results|
      invariant k <= Min(|batch|, |results|)
      invariant docs == BatchDocuments(batch, results)[..k]
    {
      var description := Description(batch[k], results[k]);
      docs := docs + [Document(description, MetadataOf(batch[k]))];
      k := k + 1;
    }
  }

  /** The parsed answer to each generator call, by call index. */
  type Answers = nat -> seq<VibeResult>

  function AnswersOf(model: Model, parse: Parser): Answers {
    (b: nat) => Descriptions(model(b), parse)
  }

  /** The documents of the first `n` batches, the b-th paired with the answer to the b-th call. */
  function DocumentsUpTo(bs: seq<seq<TrackInfo>>, answers: Answers, n: nat): seq<Document>
    requires n <= |bs|
  {
    if n == 0 then []
    else DocumentsUpTo(bs, answers, n - 1) + BatchDocuments(bs[n - 1], answers(n - 1))
  }

  /** The documents built from a list of valid tracks. */
  function BuiltDocuments(valid: seq<TrackInfo>, model: Model, parse: Parser): seq<Document> {
    var bs := Batches(valid);
    DocumentsUpTo(bs, AnswersOf(model, parse), |bs|)
  }

  /** The prompts of the first `n` calls, in call order. */
  function PromptsUpTo(bs: seq<seq<TrackInfo>>, n: nat): seq<string>
    requires n <= |bs|
  {
    seq(n, b requires 0 <= b < n => Prompt(bs[b]))
  }

  lemma PromptsUpToSnoc(bs: seq<seq<TrackInfo>>, n: nat)
    requires n < |bs|
    ensures PromptsUpTo(bs, n + 1) == PromptsUpTo(bs, n) + [Prompt(bs[n])]
  {
    var longer := PromptsUpTo(bs, n + 1);
    var shorter := PromptsUpTo(bs, n) + [Prompt(bs[n])];
    forall b | 0 <= b < n + 1
      ensures longer[b] == shorter[b]
    {
    }
  }

  /** Every batch was answered with at least as many results as it has tracks. */
  predicate AnsweredInFull(bs: seq<seq<TrackInfo>>, answers: Answers, n: nat)
    requires n <= |bs|
  {
    forall b :: 0 <= b < n ==> |answers(b)| >= |bs[b]|
  }

  lemma FlattenSnoc(bs: seq<seq<TrackInfo>>, n: nat)
    requires n < |bs|
    ensures Flatten(bs[..n + 1]) == Flatten(bs[..n]) + bs[n]
    decreases n
  {
    if n == 0 {
      assert bs[..1] == [bs[0]];
      assert Flatten([bs[0]]) == bs[0] + Flatten([]);
    } else {
      assert bs[..n + 1][1..] == bs[1..][..n];
      assert bs[..n][1..] == bs[1..][..n - 1];
      FlattenSnoc(bs[1..], n - 1);
    }
  }

  /**
   * Documents never outnumber tracks, and there are as many documents as
   * tracks precisely when every call answered in full: a batch whose call
   * failed, or whose answer was short, loses its surplus tracks.
   */
  lemma {:induction false} DocumentsCount(bs: seq<seq<TrackInfo>>, answers: Answers, n: nat)
    requires n <= |bs|
    ensures |DocumentsUpTo(bs, answers, n)| <= |Flatten(bs[..n])|
    ensures |DocumentsUpTo(bs, answers, n)| == |Flatten(bs[..n])| <==> AnsweredInFull(bs, answers, n)
  {
    if n == 0 {
      assert bs[..0] == [];
    } else {
      DocumentsCount(bs, answers, n - 1);
      var here := Min(|bs[n - 1]|, |answers(n - 1)|);
      assert |DocumentsUpTo(bs, answers, n)| == |DocumentsUpTo(bs, answers, n - 1)| + here by {
        assert |BatchDocuments(bs[n - 1], answers(n - 1))| == here;
      }
      assert |Flatten(bs[..n])| == |Flatten(bs[..n - 1])| + |bs[n - 1]| by {
        FlattenSnoc(bs, n - 1);
      }
      assert AnsweredInFull(bs, answers, n) <==>
             AnsweredInFull(bs, answers, n - 1) && here == |bs[n - 1]|;
    }
  }

  /** When every call answered in full, the k-th document describes the k-th track. */
  lemma {:induction false} DocumentsPairTracksInOrder(bs: seq<seq<TrackInfo>>, answers: Answers, n: nat)
    requires n <= |bs|
    requires AnsweredInFull(bs, answers, n)
    ensures |DocumentsUpTo(bs, answers, n)| == |Flatten(bs[..n])|
    ensures forall k :: 0 <= k < |Flatten(bs[..n])| ==>
              DocumentsUpTo(bs, answers, n)[k].metadata == MetadataOf(Flatten(bs[..n])[k])
  {
    DocumentsCount(bs, answers, n);
    if n > 0 {
      assert AnsweredInFull(bs, answers, n - 1);
      DocumentsPairTracksInOrder(bs, answers, n - 1);
      FlattenSnoc(bs, n - 1);
      var prev := DocumentsUpTo(bs, answers, n - 1);
      var here := BatchDocuments(bs[n - 1], answers(n - 1));
      var tracks := Flatten(bs[..n - 1]);
      assert |here| == |bs[n - 1]|;
      forall k | 0 <= k < |Flatten(bs[..n])|
        ensures DocumentsUpTo(bs, answers, n)[k].metadata == MetadataOf(Flatten(bs[..n])[k])
      {
        if k < |tracks| {
          assert DocumentsUpTo(bs, answers, n)[k] == prev[k];
          assert Flatten(bs[..n])[k] == tracks[k];
        } else {
          assert DocumentsUpTo(bs, answers, n)[k] == here[k - |prev|];
          assert Flatten(bs[..n])[k] == bs[n - 1][k - |tracks|];
        }
      }
    }
  }

  /** The tracks fetched for the playlist, as `fetch_playlist_tracks` returns them. */
  function FetchedTracks(token: Option<string>, replies: seq<Reply>): Outcome<seq<Item>>
    requires Truthy(token) ==> ChainEnds(replies)
  {
    if Truthy(token) then Pages(replies) else Returned([])
  }

  /** What `build_vector_store` may rely on: the pagination ends, and each kept track can be reduced. */
  predicate CanBuild(token: Option<string>, replies: seq<Reply>) {
    (Truthy(token) ==> ChainEnds(replies))
    && (FetchedTracks(token, replies).Returned? ==> AllWellFormed(FetchedTracks(token, replies).value))
  }

  /** The outcome of `build_vector_store`. */
  function Build(token: Option<string>, replies: seq<Reply>, model: Model, parse: Parser, embedError: Option<string>)
    : Outcome<Option<Store>>
    requires CanBuild(token, replies)
  {
    match FetchedTracks(token, replies)
    case Raised(m) => Raised(m)
    case Returned(items) =>
      var docs := BuiltDocuments(ValidTracks(items), model, parse);
      if docs == [] then Returned(None)
      else if embedError.Some? then Raised(embedError.value)
      else Returned(Some(Store(docs)))
  }

  /**
   * `build_vector_store`. It returns None exactly when the fetch succeeded and
   * no document was produced; a returned store holds the documents of the
   * batches in order, and the b-th generator call receives the prompt of the
   * b-th batch.
   */
  method BuildVectorStore(playlistId: string, token: Option<string>, replies: seq<Reply>,
                          model: Model, parse: Parser, embedError: Option<string>)
    returns (result: Outcome<Option<Store>>, prompts: seq<string>)
    requires CanBuild(token, replies)
    ensures result == Build(token, replies, model, parse, embedError)
    ensures result == Returned(None) <==>
              FetchedTracks(token, replies).Returned?
              && BuiltDocuments(ValidTracks(FetchedTracks(token, replies).value), model, parse) == []
    ensures FetchedTracks(token, replies).Returned? ==>
              var bs := Batches(ValidTracks(FetchedTracks(token, replies).value));
              prompts == PromptsUpTo(bs, |bs|)
  {
    var fetched, _ := FetchPlaylistTracks(playlistId, token, replies);
    assert fetched == FetchedTracks(token, replies);
    if fetched.Raised? {
      return Raised(fetched.message), [];
    }
    var valid := CollectValidTracks(fetched.value);
    var documents;
    documents, prompts := DescribeInBatches(valid, model, parse);
    if documents == [] {
      return Returned(None), prompts;
    }
    if embedError.Some? {
      return Raised(embedError.value), prompts;
    }
    result := Returned(Some(Store(documents)));
  }

  /**
   * The batch loop of `build_vector_store`: for each slice of ten valid tracks
   * the b-th generator call receives that slice's prompt, and its results are
   * paired with the slice.
   */
  method DescribeInBatches(valid: seq<TrackInfo>, model: Model, parse: Parser)
    returns (documents: seq<Document>, prompts: seq<string>)
    ensures documents == BuiltDocuments(valid, model, parse)
    ensures prompts == PromptsUpTo(Batches(valid), |Batches(valid)|)
  {
    var total := |valid|;
    ghost var bs := Batches(valid);
    ghost var answers := AnswersOf(model, parse);
    documents := [];
    prompts := [];
    var i := 0;
    var b := 0;
    while i < total
      invariant b <= |bs| && i == b * BatchSize
      invariant documents == DocumentsUpTo(bs, answers, b)
      invariant prompts == PromptsUpTo(bs, b)
      decreases total - i
    {
      BatchStart(valid, b);
      var batch := valid[i..Min(i + BatchSize, total)];
      prompts := prompts + [Prompt(batch)];
      var results := Descriptions(model(b), parse);
      var docs := ZipBatch(batch, results);
      documents := documents + docs;
      NextBatch(valid, model, parse, b, batch, results);
      i := i + BatchSize;
      b := b + 1;
    }
    BatchStart(valid, b);
  }

  /** The b-th batch starts at `10 * b`, which is inside the list exactly when there is a b-th batch. */
  lemma BatchStart(valid: seq<TrackInfo>, b: nat)
    ensures b < |Batches(valid)| <==> b * BatchSize < |valid|
    ensures b < |Batches(valid)| ==> Batches(valid)[b] == valid[b * BatchSize..Min(b * BatchSize + BatchSize, |valid|)]
  {
  }

  /** One turn of the batch loop extends the prompts and the documents by the b-th batch's. */
  lemma NextBatch(valid: seq<TrackInfo>, model: Model, parse: Parser, b: nat,
                  batch: seq<TrackInfo>, results: seq<VibeResult>)
    requires b < |Batches(valid)| && batch == Batches(valid)[b]
    requires results == Descriptions(model(b), parse)
    ensures PromptsUpTo(Batches(valid), b + 1) == PromptsUpTo(Batches(valid), b) + [Prompt(batch)]
    ensures DocumentsUpTo(Batches(valid), AnswersOf(model, parse), b + 1)
            == DocumentsUpTo(Batches(valid), AnswersOf(model, parse), b) + BatchDocuments(batch, results)
  {
    PromptsUpToSnoc(Batches(valid), b);
  }

  /**
   * When every call answers in full, the built documents are one per valid
   * track, in listing order, carrying that track's name, artist and link.
   */
  lemma OneDocumentPerValidTrack(items: seq<Item>, model: Model, parse: Parser)
    requires AllWellFormed(items)
    requires AnsweredInFull(Batches(ValidTracks(items)), AnswersOf(model, parse), |Batches(ValidTracks(items))|)
    ensures |BuiltDocuments(ValidTracks(items), model, parse)| == |ValidTracks(items)|
    ensures forall k :: 0 <= k < |ValidTracks(items)| ==>
              BuiltDocuments(ValidTracks(items), model, parse)[k].metadata == MetadataOf(ValidTracks(items)[k])
  {
    var valid := ValidTracks(items);
    var bs := Batches(valid);
    BatchesPartition(valid);
    DocumentsPairTracksInOrder(bs, AnswersOf(model, parse), |bs|);
    assert bs[..|bs|] == bs;
  }
}
