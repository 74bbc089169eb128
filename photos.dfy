/** The Google Photos helper (src/helpers/photos.ts): the body of a media search, and
    the batched lookup of media items by id. The HTTP calls are parameters. */
module Photos {
  import opened Wrappers
  import Strings
  import Seqs

  /** A media item as the Photos API returns it. */
  datatype MediaItem = MediaItem(id: string, baseUrl: string, mimeType: string, creationTime: string)

  /** A reply to `mediaItems:search`; either field may be absent. */
  datatype SearchReply = SearchReply(mediaItems: Option<seq<MediaItem>>, nextPageToken: Option<string>)

  /** One entry of a `mediaItems:batchGet` reply; `mediaItem` is absent for an id the
      service could not return. */
  datatype ItemResult = ItemResult(mediaItem: Option<MediaItem>)

  /** One date of the search's `dateFilter`; month and day are absent when the date has
      fewer than three `-`-separated parts. */
  datatype DateFilter = DateFilter(year: string, month: Option<string>, day: Option<string>)

  datatype SearchBody = SearchBody(pageSize: nat, pageToken: Option<string>, dates: Option<seq<DateFilter>>)

  const PageSize := 100
  const BatchSize := 50

  /** The `i`th element of an array destructuring: absent past the end. */
  function Part(parts: seq<string>, i: nat): (r: Option<string>)
    ensures r.Some? <==> i < |parts|
    ensures r.Some? ==> r.value == parts[i]
  {
    if i < |parts| then Some(parts[i]) else None
  }

  /** The body `searchPhotos` posts. */
  function SearchBodyFor(pageToken: Option<string>, date: Option<string>): (b: SearchBody)
    ensures b.pageSize == PageSize
    ensures b.pageToken.Some? <==> pageToken.GetOr("") != ""
    ensures b.pageToken.Some? ==> b.pageToken == pageToken
    ensures b.dates.Some? <==> date.GetOr("") != ""
    ensures b.dates.Some? ==> |b.dates.value| == 1 && '-' !in b.dates.value[0].year
  {
    var token := if pageToken.GetOr("") != "" then pageToken else None;
    if date.GetOr("") == "" then SearchBody(PageSize, token, None)
    else
      var parts := Strings.Split(date.value, '-');
      SearchBody(PageSize, token, Some([DateFilter(parts[0], Part(parts, 1), Part(parts, 2))]))
  }

  /** A `Y-M-D` date filters on exactly that year, month and day. */
  lemma DateFilterOfDate(pageToken: Option<string>, y: string, m: string, d: string)
    requires '-' !in y && '-' !in m && '-' !in d
    ensures SearchBodyFor(pageToken, Some(y + "-" + m + "-" + d)).dates == Some([DateFilter(y, Some(m), Some(d))])
  {
    var date := y + "-" + m + "-" + d;
    assert date == Strings.Join([y, m, d], "-") by {
      Strings.JoinCons(m, [d], "-");
      Strings.JoinCons(y, [m, d], "-");
      assert [y] + [m, d] == [y, m, d];
      assert [m] + [d] == [m, d];
    }
    Strings.SplitJoin([y, m, d], '-');
    assert date[|y|] == '-';
  }

  /** `Math.ceil(n / 50)` */
  function BatchCount(n: nat): nat {
    (n + BatchSize - 1) / BatchSize
  }

  function Min(a: int, b: int): int {
    if a <= b then a else b
  }

  /** The batches `getPhotos` requests: `ids.slice(i * 50, (i + 1) * 50)` for each `i`
      below `ceil(|ids| / 50)`, with `slice`'s clamping to the array's length. */
  function Batches<T>(ids: seq<T>): (batches: seq<seq<T>>)
    ensures |batches| == BatchCount(|ids|)
  {
    seq(BatchCount(|ids|), i requires 0 <= i < BatchCount(|ids|) =>
      ids[Min(i * BatchSize, |ids|)..Min((i + 1) * BatchSize, |ids|)])
  }

  lemma SliceOfSuffix<T>(s: seq<T>, k: nat, lo: nat, hi: nat)
    requires k <= |s| && lo <= hi <= |s| - k
    ensures s[k..][lo..hi] == s[k + lo..k + hi]
  {
  }

  /** The first batch is the first 50 ids; the rest are the batches of what follows. */
  lemma BatchesStep<T>(ids: seq<T>)
    requires ids != []
    ensures Batches(ids) == [ids[..Min(BatchSize, |ids|)]] + Batches(ids[Min(BatchSize, |ids|)..])
  {
    var n := |ids|;
    var k := Min(BatchSize, n);
    var rest := ids[k..];
    if n <= BatchSize {
      assert BatchCount(n) == 1;
      assert BatchCount(|rest|) == 0;
    } else {
      assert BatchCount(n) == 1 + BatchCount(n - BatchSize);
      forall i | 0 <= i < BatchCount(|rest|)
        ensures Batches(ids)[i + 1] == Batches(rest)[i]
      {
        var m := n - BatchSize;
        var start := i * BatchSize;
        assert (i + 1) * BatchSize == start + BatchSize;
        assert (i + 1 + 1) * BatchSize == start + BatchSize + BatchSize;
        var lo, hi := Min(start, m), Min(start + BatchSize, m);
        assert Batches(ids)[i + 1] == ids[lo + BatchSize..hi + BatchSize];
        SliceOfSuffix(ids, BatchSize, lo, hi);
        assert Batches(rest)[i] == rest[lo..hi];
      }
    }
  }

  /** The batches, concatenated in order, are exactly the ids. */
  lemma {:induction false} BatchesCover<T>(ids: seq<T>)
    ensures Seqs.Flatten(Batches(ids)) == ids
    decreases |ids|
  {
    if ids != [] {
      BatchesStep(ids);
      var k := Min(BatchSize, |ids|);
      BatchesCover(ids[k..]);
      assert ids[..k] + ids[k..] == ids;
    }
  }

  /** Every batch holds between 1 and 50 ids. */
  lemma BatchSizes<T>(ids: seq<T>, i: nat)
    requires i < |Batches(ids)|
    ensures 1 <= |Batches(ids)[i]| <= BatchSize
  {
    var n := |ids|;
    assert i * BatchSize < n by {
      assert i < (n + BatchSize - 1) / BatchSize;
      assert (i + 1) * BatchSize <= n + BatchSize - 1;
    }
  }

  /** A reply the lookup accepts: present and with a non-empty `mediaItemResults`. */
  predicate Answered(reply: Option<seq<ItemResult>>) {
    reply.Some? && reply.value != []
  }

  /** The items of an accepted reply: each result's `mediaItem`, absent ones included. */
  function Items(results: seq<ItemResult>): (items: seq<Option<MediaItem>>)
    ensures |items| == |results|
    ensures forall i :: 0 <= i < |results| ==> items[i] == results[i].mediaItem
  {
    seq(|results|, i requires 0 <= i < |results| => results[i].mediaItem)
  }

  /** The replies to the batch requests, in batch order. */
  function Replies(ids: seq<string>, fetch: seq<string> -> Option<seq<ItemResult>>): (replies: seq<Option<seq<ItemResult>>>)
    ensures |replies| == |Batches(ids)|
    ensures forall i :: 0 <= i < |replies| ==> replies[i] == fetch(Batches(ids)[i])
  {
    var batches := Batches(ids);
    seq(|batches|, i requires 0 <= i < |batches| => fetch(batches[i]))
  }

  predicate AllAnswered(replies: seq<Option<seq<ItemResult>>>) {
    forall i :: 0 <= i < |replies| ==> Answered(replies[i])
  }

  /** The items of every reply, in reply order. */
  function Collected(replies: seq<Option<seq<ItemResult>>>): seq<seq<Option<MediaItem>>>
    requires AllAnswered(replies)
  {
    seq(|replies|, i requires 0 <= i < |replies| && AllAnswered(replies) => Items(replies[i].value))
  }

  /** `getPhotos`: `fetch` answers one batch (None for a missing reply or one without
      `mediaItemResults`). The lookup fails when any batch's reply is missing or empty,
      and otherwise gives every batch's items in batch order. */
  function GetPhotos(ids: seq<string>, fetch: seq<string> -> Option<seq<ItemResult>>): (r: Option<seq<Option<MediaItem>>>)
    ensures r.None? <==> exists i :: 0 <= i < |Batches(ids)| && !Answered(fetch(Batches(ids)[i]))
    ensures r.Some? ==> AllAnswered(Replies(ids, fetch)) && r.value == Seqs.Flatten(Collected(Replies(ids, fetch)))
    ensures ids == [] ==> r == Some([])
  {
    var replies := Replies(ids, fetch);
    if AllAnswered(replies) then Some(Seqs.Flatten(Collected(replies))) else None
  }

  /** Flattening sequences of equal lengths gives results of equal length. */
  lemma {:induction false} FlattenSameLength<T, U>(xss: seq<seq<T>>, yss: seq<seq<U>>)
    requires |xss| == |yss|
    requires forall i :: 0 <= i < |xss| ==> |xss[i]| == |yss[i]|
    ensures |Seqs.Flatten(xss)| == |Seqs.Flatten(yss)|
    decreases |xss|
  {
    if xss != [] {
      FlattenSameLength(xss[1..], yss[1..]);
    }
  }

  /** When the service answers every id of every batch, the lookup succeeds with one
      result per requested id. */
  lemma OneResultPerId(ids: seq<string>, fetch: seq<string> -> Option<seq<ItemResult>>)
    requires forall i :: 0 <= i < |Batches(ids)| ==>
               fetch(Batches(ids)[i]).Some? && |fetch(Batches(ids)[i]).value| == |Batches(ids)[i]|
    ensures GetPhotos(ids, fetch).Some? && |GetPhotos(ids, fetch).value| == |ids|
  {
    var batches := Batches(ids);
    var replies := Replies(ids, fetch);
    forall i | 0 <= i < |replies| ensures Answered(replies[i]) {
      BatchSizes(ids, i);
    }
    FlattenSameLength(Collected(replies), batches);
    BatchesCover(ids);
  }
}
