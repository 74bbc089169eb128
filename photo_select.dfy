/** The photo picker (src/components/PhotoSelect.tsx): pages of Google Photos media for
    one date, grouped by date, with a selection toggled per photo or per date. The search
    replies and the `dateInput` date formatter are parameters. */
module PhotoSelect {
  import opened Wrappers
  import Seqs
  import Strings
  import Photos

  datatype MediaType = Image | Video

  /** A photo as the picker keeps it. */
  datatype MediaFile = MediaFile(id: string, url: string, date: string, kind: MediaType)

  /** An item is an image when its MIME type starts with `image`, a video otherwise. */
  function KindOf(mimeType: string): (k: MediaType)
    ensures k == Image <==> Strings.StartsWith(mimeType, "image")
  {
    if Strings.StartsWith(mimeType, "image") then Image else Video
  }

  /** The picker's view of the items of a search reply, in reply order. */
  function ToMediaFiles(items: seq<Photos.MediaItem>, dateInput: string -> string): (files: seq<MediaFile>)
    ensures |files| == |items|
    ensures forall i :: 0 <= i < |items| ==>
              files[i].id == items[i].id && files[i].url == items[i].baseUrl &&
              files[i].date == dateInput(items[i].creationTime) &&
              (files[i].kind == Image <==> Strings.StartsWith(items[i].mimeType, "image"))
  {
    seq(|items|, i requires 0 <= i < |items| =>
      MediaFile(items[i].id, items[i].baseUrl, dateInput(items[i].creationTime), KindOf(items[i].mimeType)))
  }

  // ---- loadMore ----

  /** `loadMore` as written: `photos.concat(results.mediaItems?.map(…))`. A reply without
      `mediaItems` concatenates `undefined`, which leaves a hole (None) in the list. */
  function LoadedAsWritten(photos: seq<Option<MediaFile>>, reply: Photos.SearchReply, dateInput: string -> string): (r: seq<Option<MediaFile>>)
    ensures |photos| <= |r| && r[..|photos|] == photos
    ensures reply.mediaItems.None? ==> r == photos + [None]
  {
    match reply.mediaItems
    case None => photos + [None]
    case Some(items) =>
      var added := ToMediaFiles(items, dateInput);
      photos + seq(|added|, i requires 0 <= i < |added| => Some(added[i]))
  }

  /** A reply with no `mediaItems` puts a hole into the list, on which the grouping by
      `photo.date` fails. */
  lemma LoadMoreHole(photo: MediaFile, dateInput: string -> string)
    ensures None in LoadedAsWritten([Some(photo)], Photos.SearchReply(None, Some("next")), dateInput)
  {
    assert LoadedAsWritten([Some(photo)], Photos.SearchReply(None, Some("next")), dateInput)[1] == None;
  }

  /** `loadMore` with the `|| []` fallback the date-change path has: the reply's items
      follow the old photos, and a reply without items adds nothing. */
  function Loaded(photos: seq<MediaFile>, reply: Photos.SearchReply, dateInput: string -> string): (r: seq<MediaFile>)
    ensures |photos| <= |r| && r[..|photos|] == photos
    ensures r[|photos|..] == ToMediaFiles(reply.mediaItems.GetOr([]), dateInput)
    ensures reply.mediaItems.None? ==> r == photos
  {
    photos + ToMediaFiles(reply.mediaItems.GetOr([]), dateInput)
  }

  /** On replies that carry items the two agree, photo for photo. */
  lemma LoadedAgrees(photos: seq<MediaFile>, reply: Photos.SearchReply, dateInput: string -> string)
    requires reply.mediaItems.Some?
    ensures var asWritten := LoadedAsWritten(seq(|photos|, i requires 0 <= i < |photos| => Some(photos[i])), reply, dateInput);
      var fixed := Loaded(photos, reply, dateInput);
      |asWritten| == |fixed| && forall i :: 0 <= i < |fixed| ==> asWritten[i] == Some(fixed[i])
  {
  }

  // ---- the date grouping ----

  function Dates(photos: seq<MediaFile>): (dates: seq<string>)
    ensures |dates| == |photos|
    ensures forall i :: 0 <= i < |photos| ==> dates[i] == photos[i].date
  {
    seq(|photos|, i requires 0 <= i < |photos| => photos[i].date)
  }

  /** The reduce that pushes a date into the accumulator unless it is already there. */
  function Dedup(s: seq<string>): seq<string>
    decreases |s|
  {
    if s == [] then []
    else
      var d := Dedup(s[..|s| - 1]);
      if s[|s| - 1] in d then d else d + [s[|s| - 1]]
  }

  lemma {:induction false} DedupElements(s: seq<string>)
    ensures forall x :: x in Dedup(s) <==> x in s
    decreases |s|
  {
    if s != [] {
      var init := s[..|s| - 1];
      DedupElements(init);
      assert s == init + [s[|s| - 1]];
    }
  }

  lemma {:induction false} DedupDistinct(s: seq<string>)
    ensures Seqs.Distinct(Dedup(s))
    decreases |s|
  {
    if s != [] {
      DedupDistinct(s[..|s| - 1]);
    }
  }

  lemma {:induction false} IndexOfExtended(s: seq<string>, y: string, x: string)
    requires x in s
    ensures Seqs.IndexOf(s + [y], x) == Seqs.IndexOf(s, x)
    decreases |s|
  {
    if s[0] != x {
      assert (s + [y])[1..] == s[1..] + [y];
      IndexOfExtended(s[1..], y, x);
    }
  }

  lemma IndexOfLast(init: seq<string>, last: string)
    requires last !in init
    ensures Seqs.IndexOf(init + [last], last) == |init|
  {
  }

  /** The grouping in first-occurrence order, as a property of a list of dates. */
  predicate InFirstOccurrenceOrder(s: seq<string>, d: seq<string>)
    requires forall x :: x in d ==> x in s
  {
    forall i, j :: 0 <= i < j < |d| ==> Seqs.IndexOf(s, d[i]) < Seqs.IndexOf(s, d[j])
  }

  /** One more date keeps the grouping in first-occurrence order. */
  lemma DedupOrderAppend(init: seq<string>, last: string)
    requires forall x :: x in Dedup(init) <==> x in init
    requires InFirstOccurrenceOrder(init, Dedup(init))
    ensures forall x :: x in Dedup(init + [last]) ==> x in init + [last]
    ensures InFirstOccurrenceOrder(init + [last], Dedup(init + [last]))
  {
    var s := init + [last];
    var d := Dedup(init);
    assert s[..|s| - 1] == init;
    forall x | x in d ensures Seqs.IndexOf(s, x) == Seqs.IndexOf(init, x) {
      IndexOfExtended(init, last, x);
    }
    if last !in d {
      IndexOfLast(init, last);
      assert Dedup(s) == d + [last];
    } else {
      assert Dedup(s) == d;
    }
  }

  /** The grouped dates come in the order of their first occurrence. */
  lemma {:induction false} DedupFirstOccurrence(s: seq<string>)
    ensures forall x :: x in Dedup(s) ==> x in s
    ensures InFirstOccurrenceOrder(s, Dedup(s))
    decreases |s|
  {
    if s == [] {
      DedupElements(s);
    } else {
      var init, last := s[..|s| - 1], s[|s| - 1];
      assert s == init + [last];
      DedupFirstOccurrence(init);
      DedupElements(init);
      DedupOrderAppend(init, last);
    }
  }

  // ---- the toggles ----

  /** The ids of the photos taken on `date`, in photo order. */
  function IdsOn(photos: seq<MediaFile>, date: string): (ids: seq<string>)
    ensures forall id :: id in ids <==> exists i :: 0 <= i < |photos| && photos[i].date == date && photos[i].id == id
    decreases |photos|
  {
    if photos == [] then []
    else
      var rest := IdsOn(photos[1..], date);
      assert forall i :: 1 <= i < |photos| ==> photos[i] == photos[1..][i - 1];
      if photos[0].date == date then [photos[0].id] + rest else rest
  }

  /** No two photos share an id. */
  predicate DistinctIds(photos: seq<MediaFile>) {
    forall i, j :: 0 <= i < j < |photos| ==> photos[i].id != photos[j].id
  }

  lemma {:induction false} IdsOnDistinct(photos: seq<MediaFile>, date: string)
    requires DistinctIds(photos)
    ensures Seqs.Distinct(IdsOn(photos, date))
    decreases |photos|
  {
    if photos != [] {
      IdsOnDistinct(photos[1..], date);
      if photos[0].date == date {
        var rest := IdsOn(photos[1..], date);
        assert photos[0].id !in rest by {
          forall i | 0 <= i < |photos[1..]| ensures photos[1..][i].id != photos[0].id {
            assert photos[1..][i] == photos[i + 1];
          }
        }
        assert [photos[0].id] + rest == IdsOn(photos, date);
      }
    }
  }

  /** Clicking one photo: deselect it if selected, otherwise append it. */
  function ToggledOne(selected: seq<string>, id: string): (r: seq<string>)
    ensures id in r <==> id !in selected
    ensures forall x :: x != id ==> (x in r <==> x in selected)
  {
    if id in selected then Seqs.Without(selected, [id]) else selected + [id]
  }

  /** A single toggle never selects a photo twice. */
  lemma ToggledOneDistinct(selected: seq<string>, id: string)
    requires Seqs.Distinct(selected)
    ensures Seqs.Distinct(ToggledOne(selected, id))
  {
    if id in selected {
      Seqs.WithoutKeepsDistinct(selected, [id]);
    } else {
      Seqs.DisjointConcatDistinct(selected, [id]);
    }
  }

  /** Clicking a date: when every photo of that date is selected they are all
      deselected; otherwise the missing ones are appended after the current selection. */
  function ToggledDate(selected: seq<string>, current: seq<string>): (r: seq<string>)
    ensures (forall id :: id in current ==> id in selected) ==>
              forall x :: x in r <==> x in selected && x !in current
    ensures (exists id :: id in current && id !in selected) ==>
              |selected| <= |r| && r[..|selected|] == selected &&
              forall x :: x in r <==> x in selected || x in current
  {
    if forall id :: id in current ==> id in selected then Seqs.Without(selected, current)
    else selected + Seqs.Without(current, selected)
  }

  /** A date toggle never selects a photo twice. */
  lemma ToggledDateDistinct(selected: seq<string>, photos: seq<MediaFile>, date: string)
    requires Seqs.Distinct(selected) && DistinctIds(photos)
    ensures Seqs.Distinct(ToggledDate(selected, IdsOn(photos, date)))
  {
    var current := IdsOn(photos, date);
    if forall id :: id in current ==> id in selected {
      Seqs.WithoutKeepsDistinct(selected, current);
    } else {
      IdsOnDistinct(photos, date);
      Seqs.WithoutKeepsDistinct(current, selected);
      Seqs.DisjointConcatDistinct(selected, Seqs.Without(current, selected));
    }
  }

  /** Toggling a date twice restores which photos are selected, when none or all of
      that date's photos were selected to begin with. */
  lemma ToggledDateTwice(selected: seq<string>, current: seq<string>)
    requires current != []
    requires (forall id :: id in current ==> id in selected) || (forall id :: id in current ==> id !in selected)
    ensures forall x :: x in ToggledDate(ToggledDate(selected, current), current) <==> x in selected
  {
    var once := ToggledDate(selected, current);
    var twice := ToggledDate(once, current);
    if forall id :: id in current ==> id in selected {
      assert forall x :: x in once <==> x in selected && x !in current;
      assert current[0] in current && current[0] !in once;
      assert forall x :: x in twice <==> x in once || x in current;
    } else {
      assert current[0] in current && current[0] !in selected;
      assert forall x :: x in once <==> x in selected || x in current;
      assert forall x :: x in twice <==> x in once && x !in current;
    }
  }

  /** The photos to upload: those whose id is selected, each as often as it occurs among
      the photos. */
  function SelectedPhotos(photos: seq<MediaFile>, selected: seq<string>): (r: seq<MediaFile>)
    ensures |r| <= |photos|
    ensures forall p :: p in r <==> p in photos && p.id in selected
    ensures forall p :: multiset(r)[p] == if p.id in selected then multiset(photos)[p] else 0
    decreases |photos|
  {
    if photos == [] then []
    else
      assert photos == [photos[0]] + photos[1..];
      if photos[0].id in selected then [photos[0]] + SelectedPhotos(photos[1..], selected)
      else SelectedPhotos(photos[1..], selected)
  }

  /** The selection of a concatenation is the selection of each part, in order: the
      selected photos keep their order among the photos. */
  lemma {:induction false} SelectedPhotosAppend(a: seq<MediaFile>, b: seq<MediaFile>, selected: seq<string>)
    ensures SelectedPhotos(a + b, selected) == SelectedPhotos(a, selected) + SelectedPhotos(b, selected)
    decreases |a|
  {
    if a == [] {
      assert a + b == b;
    } else {
      var ab := a + b;
      assert ab[0] == a[0] && ab[1..] == a[1..] + b;
      SelectedPhotosAppend(a[1..], b, selected);
      var tail := SelectedPhotos(a[1..], selected) + SelectedPhotos(b, selected);
      if a[0].id in selected {
        calc {
          SelectedPhotos(ab, selected);
          [a[0]] + SelectedPhotos(ab[1..], selected);
          [a[0]] + tail;
          ([a[0]] + SelectedPhotos(a[1..], selected)) + SelectedPhotos(b, selected);
        }
      } else {
        assert SelectedPhotos(ab, selected) == SelectedPhotos(ab[1..], selected);
      }
    }
  }

  /** When every photo is selected, all of them are handed over in their own order. */
  lemma {:induction false} SelectedPhotosAll(photos: seq<MediaFile>, selected: seq<string>)
    requires forall i :: 0 <= i < |photos| ==> photos[i].id in selected
    ensures SelectedPhotos(photos, selected) == photos
    decreases |photos|
  {
    if photos != [] {
      assert forall i :: 0 <= i < |photos[1..]| ==> photos[1..][i] == photos[i + 1];
      SelectedPhotosAll(photos[1..], selected);
      assert photos == [photos[0]] + photos[1..];
    }
  }

  /** The picker's state. */
  class Picker {
    var open: bool
    var date: string
    var photos: seq<MediaFile>
    var selected: seq<string>
    var nextPageToken: string

    /** The picker opens on `initialDate`, or today when none is given. */
    constructor (initialDate: string, today: string)
      ensures !open && photos == [] && selected == [] && nextPageToken == ""
      ensures date == if initialDate != "" then initialDate else today
    {
      open, photos, selected, nextPageToken := false, [], [], "";
      date := if initialDate != "" then initialDate else today;
    }

    /** The date effect: a fresh search for `date`; a reply clears the selection and
        replaces the photos (none when the reply has no `mediaItems`). */
    method DateChanged(reply: Option<Photos.SearchReply>, dateInput: string -> string) returns (body: Photos.SearchBody)
      modifies this
      ensures body == Photos.SearchBodyFor(None, Some(date))
      ensures reply.None? ==> unchanged(this)
      ensures reply.Some? ==>
                selected == [] && photos == ToMediaFiles(reply.value.mediaItems.GetOr([]), dateInput) &&
                nextPageToken == reply.value.nextPageToken.GetOr("") &&
                open == old(open) && date == old(date)
    {
      body := Photos.SearchBodyFor(None, Some(date));
      if reply.None? {
        return;
      }
      selected := [];
      photos := ToMediaFiles(reply.value.mediaItems.GetOr([]), dateInput);
      nextPageToken := reply.value.nextPageToken.GetOr("");
    }

    /** The `initialDate` effect: a non-empty new initial date becomes the picked date. */
    method FollowInitialDate(initialDate: string)
      modifies this
      ensures date == if initialDate != "" then initialDate else old(date)
      ensures open == old(open) && photos == old(photos) && selected == old(selected) &&
              nextPageToken == old(nextPageToken)
    {
      if initialDate != "" && date != initialDate {
        date := initialDate;
      }
    }

    /** `loadMore` with the missing-items fallback: the next page for the same date. */
    method LoadMore(reply: Option<Photos.SearchReply>, dateInput: string -> string) returns (body: Photos.SearchBody)
      modifies this
      ensures body == Photos.SearchBodyFor(Some(old(nextPageToken)), Some(date))
      ensures reply.None? ==> unchanged(this)
      ensures reply.Some? ==>
                photos == Loaded(old(photos), reply.value, dateInput) &&
                nextPageToken == reply.value.nextPageToken.GetOr("") &&
                selected == old(selected) && open == old(open) && date == old(date)
    {
      body := Photos.SearchBodyFor(Some(nextPageToken), Some(date));
      if reply.None? {
        return;
      }
      photos := Loaded(photos, reply.value, dateInput);
      nextPageToken := reply.value.nextPageToken.GetOr("");
    }

    /** The dates shown as group headings: each photo date once, in order of first
        occurrence. */
    method GroupDates() returns (dates: seq<string>)
      ensures dates == Dedup(Dates(photos))
      ensures Seqs.Distinct(dates)
      ensures forall d :: d in dates <==> exists i :: 0 <= i < |photos| && photos[i].date == d
      ensures forall d :: d in dates ==> d in Dates(photos)
      ensures InFirstOccurrenceOrder(Dates(photos), dates)
    {
      var all := Dates(photos);
      dates := [];
      var i := 0;
      while i < |all|
        invariant 0 <= i <= |all|
        invariant dates == Dedup(all[..i])
      {
        assert all[..i + 1][..i] == all[..i];
        if all[i] !in dates {
          dates := dates + [all[i]];
        }
        i := i + 1;
      }
      assert all[..|all|] == all;
      DedupDistinct(all);
      DedupElements(all);
      DedupFirstOccurrence(all);
    }

    method ToggleOne(id: string)
      modifies this
      ensures selected == ToggledOne(old(selected), id)
      ensures photos == old(photos) && open == old(open) && date == old(date) && nextPageToken == old(nextPageToken)
    {
      selected := ToggledOne(selected, id);
    }

    method ToggleDate(d: string)
      modifies this
      ensures selected == ToggledDate(old(selected), IdsOn(photos, d))
      ensures photos == old(photos) && open == old(open) && date == old(date) && nextPageToken == old(nextPageToken)
    {
      selected := ToggledDate(selected, IdsOn(photos, d));
    }

    /** The Upload button: hands over the selected photos, clears the selection and
        closes the dialog. */
    method Upload() returns (uploaded: seq<MediaFile>)
      modifies this
      ensures uploaded == SelectedPhotos(photos, old(selected))
      ensures !open && selected == []
      ensures photos == old(photos) && date == old(date) && nextPageToken == old(nextPageToken)
    {
      uploaded := SelectedPhotos(photos, selected);
      open := false;
      selected := [];
    }
  }
}
