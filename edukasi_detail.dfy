/**
 * The education detail page: the component state that `fetchEducation` writes
 * (the item, the loading flag, the access-denied flag), the view chosen from that
 * state, the media block, the type badge (icon, colour, label) and the topic tags.
 */
module EdukasiDetail {
  import opened Wrappers
  import opened Text
  import opened CivilDate
  import opened Database
  import opened Edukasi

  /** What the `educations` query returned: an error, no row, or the row. */
  datatype FetchResult = FetchError | NoData | Fetched(row: Education)

  /** What the page renders. */
  datatype View = Skeleton | PremiumNotice | RedirectToList | Article(shown: Education)

  /** The component's state hooks. */
  class DetailPage {
    var education: Option<Education>
    var loading: bool
    var accessDenied: bool

    /** The initial state: no item, loading, not denied. */
    constructor ()
      ensures education.None? && loading && !accessDenied
    {
      education := None;
      loading := true;
      accessDenied := false;
    }

    /**
     * `fetchEducation` with the query's result: a fetched item the viewer may not
     * open sets the access-denied flag, one they may open is stored, an error or a
     * missing row sets neither; loading ends in every case.
     */
    method FetchEducation(result: FetchResult, profile: Option<Profile>, now: Date)
      modifies this
      ensures !loading
      ensures result.Fetched? && !CanView(result.row, profile, now) ==>
                accessDenied && education == old(education)
      ensures result.Fetched? && CanView(result.row, profile, now) ==>
                education == Some(result.row) && accessDenied == old(accessDenied)
      ensures !result.Fetched? ==> education == old(education) && accessDenied == old(accessDenied)
    {
      if result.Fetched? {
        var data := result.row;
        var canAccessPremium := CanView(data, profile, now);
        if !canAccessPremium {
          accessDenied := true;
        } else {
          education := Some(data);
        }
      }
      loading := false;
    }

    /** The render branches, in their order: loading, denied, no item, the article. */
    function CurrentView(): View
      reads this
    {
      if loading then Skeleton
      else if accessDenied then PremiumNotice
      else if education.None? then RedirectToList
      else Article(education.value)
    }
  }

  /**
   * Opening the page: mount, run the fetch once, render. Exactly one outcome: the
   * article for an item the viewer may open, the premium notice for one they may
   * not, and a redirect to the list when the query failed or found nothing.
   */
  method Visit(result: FetchResult, profile: Option<Profile>, now: Date) returns (view: View)
    ensures view != Skeleton
    ensures view.Article? <==> result.Fetched? && CanView(result.row, profile, now)
    ensures view.Article? ==> view.shown == result.row
    ensures view == PremiumNotice <==> result.Fetched? && !CanView(result.row, profile, now)
    ensures view == RedirectToList <==> !result.Fetched?
  {
    var page := new DetailPage();
    page.FetchEducation(result, profile, now);
    view := page.CurrentView();
  }

  /** The detail page lets through exactly what the list page shows, when no search or tab is applied. */
  lemma DetailAgreesWithList(educations: seq<Education>, e: Education, profile: Option<Profile>, now: Date)
    requires e in educations
    ensures e in FilteredEducations(educations, "", "semua", profile, now) <==> CanView(e, profile, now)
  {
    EmptyQueryMatchesAll(e);
  }

  // ---------------------------------------------------------------- media

  datatype Media = NoMedia | VideoFrame(src: string, title: string) | Picture(src: string, alt: string)

  /** `renderMedia`: nothing without a media URL; an iframe for 'video', an image for 'gambar', nothing otherwise. */
  function RenderMedia(e: Education): (m: Media)
    ensures m.NoMedia? <==> e.mediaUrl.None? || e.mediaUrl.value == "" || (e.tipe != "video" && e.tipe != "gambar")
    ensures m.VideoFrame? <==> e.tipe == "video" && e.mediaUrl.Some? && e.mediaUrl.value != ""
    ensures !m.NoMedia? ==> m.src == e.mediaUrl.value && m.src != ""
    ensures m.VideoFrame? ==> m.title == e.judul
    ensures m.Picture? ==> m.alt == e.judul
  {
    if e.mediaUrl.None? || e.mediaUrl.value == "" then NoMedia
    else if e.tipe == "video" then VideoFrame(e.mediaUrl.value, e.judul)
    else if e.tipe == "gambar" then Picture(e.mediaUrl.value, e.judul)
    else NoMedia
  }

  // ---------------------------------------------------------------- type badge

  datatype Icon = PlayCircle | FileText | ImageIcon

  predicate KnownType(t: string) {
    t == "video" || t == "artikel" || t == "gambar"
  }

  /** `getTypeIcon`: a play icon for videos, an image icon for pictures, the file icon otherwise. */
  function TypeIcon(t: string): (i: Icon)
    ensures i == PlayCircle <==> t == "video"
    ensures i == ImageIcon <==> t == "gambar"
    ensures !KnownType(t) ==> i == FileText
  {
    match t
    case "video" => PlayCircle
    case "artikel" => FileText
    case "gambar" => ImageIcon
    case _ => FileText
  }

  const Grey := "bg-gray-500/20 text-gray-300"

  /** `getTypeColor`: red, blue and green for the three types, grey for anything else. */
  function TypeColor(t: string): (c: string)
    ensures c == Grey <==> !KnownType(t)
  {
    match t
    case "video" => "bg-red-500/20 text-red-300"
    case "artikel" => "bg-blue-500/20 text-blue-300"
    case "gambar" => "bg-green-500/20 text-green-300"
    case _ => Grey
  }

  /** The three known types get three different colours. */
  lemma TypeColorsDistinct(s: string, t: string)
    requires KnownType(s) && KnownType(t) && s != t
    ensures TypeColor(s) != TypeColor(t)
  {
  }

  /** `tipe.charAt(0).toUpperCase() + tipe.slice(1)`. */
  function TypeLabel(t: string): (caption: string)
    ensures |caption| == |t|
    ensures t != [] ==> caption[0] == UpperChar(t[0]) && caption[1..] == t[1..]
  {
    if t == [] then [] else [UpperChar(t[0])] + t[1..]
  }

  /** The label differs from the type only in the case of its first letter. */
  lemma TypeLabelKeepsLowerCase(t: string)
    ensures Lower(TypeLabel(t)) == Lower(t)
  {
    if t != [] {
      LowerOfUpper(t[0]);
      assert forall i :: 0 <= i < |t| ==> Lower(TypeLabel(t))[i] == Lower(t)[i];
    }
  }

  /** The label of 'video' is "Video". */
  lemma VideoLabel()
    ensures TypeLabel("video") == "Video"
  {
  }

  // ---------------------------------------------------------------- tags

  /** `topik.split(' ')`: every space-separated piece of the topic is a tag. */
  function DetailTags(topik: string): (tags: seq<string>)
    ensures |tags| >= 1
    ensures forall k :: 0 <= k < |tags| ==> ' ' !in tags[k]
  {
    Split(topik, ' ')
  }

  /** No part of the topic is lost: joining the tags with spaces gives the topic back. */
  lemma DetailTagsCoverTopic(topik: string)
    ensures Join(DetailTags(topik), ' ') == topik
  {
    JoinSplit(topik, ' ');
  }

  /** The tags on the list card are the first (at most two) tags of the detail page. */
  lemma CardTagsArePrefix(topik: string)
    ensures CardTags(topik) == DetailTags(topik)[..|CardTags(topik)|]
  {
  }
}
