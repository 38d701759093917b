/** The family album page: a seeded list of photos and uploading a new one
    in front of them. */
module Photos {
  import opened Js

  /** One photo; `date` is a `YYYY-MM-DD` string. */
  datatype Photo = Photo(id: int, url: string, title: string, date: string, author: string)

  const UploadAuthor: string := "Me"

  /** The album the page starts with. */
  const MockPhotos: seq<Photo> := [
    Photo(1, "https://picsum.photos/seed/family1/400/400", "Summer Vacation", "2023-08-15", "Dad"),
    Photo(2, "https://picsum.photos/seed/family2/400/400", "Birthday Party", "2023-11-20", "Mom"),
    Photo(3, "https://picsum.photos/seed/family3/400/400", "Christmas", "2023-12-25", "Me"),
    Photo(4, "https://picsum.photos/seed/family4/400/400", "Picnic", "2024-04-10", "Mom"),
    Photo(5, "https://picsum.photos/seed/family5/400/400", "New Puppy", "2024-05-01", "Brother")
  ]

  /** The image URL for an upload, seeded with a `Date.now()` reading. */
  function PhotoUrl(stamp: nat): (r: string)
    ensures |r| == 27 + |DecimalString(stamp)| + 8
    ensures r[..27] == "https://picsum.photos/seed/"
    ensures r[27..|r| - 8] == DecimalString(stamp)
    ensures r[|r| - 8..] == "/400/400"
  {
    "https://picsum.photos/seed/" + DecimalString(stamp) + "/400/400"
  }

  /** `if (title)`: the prompt was not cancelled and the answer is not empty.
      Unlike the other pages, a title of only spaces is accepted. */
  predicate Accepts(title: Option<string>)
    ensures Accepts(title) ==> title.Some?
    ensures title.Some? ==> (Accepts(title) <==> |title.value| > 0)
  {
    title.Some? && title.value != ""
  }

  /** The photo `handleUpload` builds. The source reads the clock twice:
      `idStamp` is the reading used as id, `urlStamp` the one in the URL, and
      `isoNow` the ISO-8601 text of `new Date()`, whose part before `T` is
      the date. */
  function NewPhoto(title: string, idStamp: nat, urlStamp: nat, isoNow: string): (p: Photo)
    ensures p.title == title && p.author == "Me" && p.id == idStamp
    ensures p.url == PhotoUrl(urlStamp)
    ensures 'T' !in p.date && |p.date| <= |isoNow| && p.date == isoNow[..|p.date|]
    ensures |p.date| < |isoNow| ==> isoNow[|p.date|] == 'T'
  {
    Photo(idStamp, PhotoUrl(urlStamp), title, SplitHead(isoNow, 'T'), UploadAuthor)
  }

  /** The seed album: ids 1 to 5 in order. */
  lemma MockPhotosIds()
    ensures |MockPhotos| == 5
    ensures forall i :: 0 <= i < |MockPhotos| ==> MockPhotos[i].id == i + 1
  {
  }

  /** The date of an upload is the calendar part of the ISO timestamp. */
  lemma {:induction false} NewPhotoDate(title: string, idStamp: nat, urlStamp: nat, day: string, time: string)
    requires 'T' !in day
    ensures NewPhoto(title, idStamp, urlStamp, day + "T" + time).date == day
  {
    var iso := day + "T" + time;
    assert iso[..|day|] == day;
    assert iso[|day|] == 'T';
    SplitHeadUnique(iso, 'T', day);
  }

  /** Cancelling, or answering with an empty title, is the only way an
      upload is refused; a non-empty title of blanks, which the task and chat
      guards would refuse, is taken here. */
  lemma AcceptsBlankTitle(s: string)
    requires s != "" && IsBlank(s)
    ensures !Accepts(None) && !Accepts(Some(""))
    ensures Accepts(Some(s)) && Trim(s) == ""
  {
  }

  /** The page's one state slot: the album. */
  class PhotosPage {
    var photos: seq<Photo>

    constructor ()
      ensures photos == MockPhotos
    {
      photos := MockPhotos;
    }

    /** `handleUpload` given the prompt's answer (`None` when cancelled): a
        refused title changes nothing; otherwise the new photo, titled as
        entered and authored `Me`, goes in front and every earlier photo
        follows it unchanged and in order. */
    method HandleUpload(title: Option<string>, idStamp: nat, urlStamp: nat, isoNow: string)
      modifies this
      ensures !Accepts(title) ==> photos == old(photos)
      ensures Accepts(title) ==>
                && |photos| == |old(photos)| + 1
                && photos[0] == NewPhoto(title.value, idStamp, urlStamp, isoNow)
                && photos[0].title == title.value && photos[0].author == "Me"
                && photos[1..] == old(photos)
    {
      if Accepts(title) {
        photos := [NewPhoto(title.value, idStamp, urlStamp, isoNow)] + photos;
      }
    }
  }
}
