/** The homepage section of components/instagram-feed.tsx: loads the Instagram
    settings and posts, decides whether anything is shown, and formats each
    post's caption and counts. */
module InstagramFeed {
  import opened Common
  import opened Strings
  import opened Instagram

  /** The caption length shown on a card. */
  const CaptionLimit: nat := 120

  /** `truncateCaption`: the caption itself when it fits, otherwise its first
      `maxLength` characters and an ellipsis. Lengths are counted in characters. */
  function TruncateCaption(caption: string, maxLength: nat): (r: string)
    ensures |caption| <= maxLength ==> r == caption
    ensures |caption| > maxLength ==> |r| == maxLength + 3 && r[maxLength..] == "..."
  {
    if |caption| <= maxLength then caption else caption[..maxLength] + "..."
  }

  /** A truncated caption is as long as the limit allows, begins like the
      caption, and truncating it again changes nothing. */
  lemma TruncateCaptionCorrect(caption: string, maxLength: nat)
    ensures |TruncateCaption(caption, maxLength)| <= maxLength + 3
    ensures TruncateCaption(caption, maxLength)[..Min(|caption|, maxLength)] == caption[..Min(|caption|, maxLength)]
    ensures TruncateCaption(TruncateCaption(caption, maxLength), maxLength) == TruncateCaption(caption, maxLength)
  {
  }

  /** `formatNumber`: counts from 1000 on as thousands with one decimal and a
      "k"; `thousands` is the text `(num / 1000).toFixed(1)`. Smaller counts are
      written out. */
  function FormatNumber(num: int, thousands: string): string {
    if num >= 1000 then thousands + "k" else IntToString(num)
  }

  lemma {:induction false} SmallNatLength(n: nat)
    requires n < 1000
    ensures |NatToString(n)| <= 3
  {
    if n >= 10 {
      SmallNatLength(n / 10);
      assert n / 10 < 100;
      if n / 10 >= 10 {
        assert n / 100 < 10;
        assert |NatToString(n / 10)| == 2;
      }
    }
  }

  /** The "k" appears exactly for counts of a thousand and more; a smaller
      non-negative count is written in at most three digits that read back as
      the count. */
  lemma FormatNumberCorrect(num: int, thousands: string)
    ensures |FormatNumber(num, thousands)| > 0
    ensures FormatNumber(num, thousands)[|FormatNumber(num, thousands)| - 1] == 'k' <==> num >= 1000
    ensures 0 <= num < 1000 ==>
              var r := FormatNumber(num, thousands);
              && |r| <= 3
              && (forall i :: 0 <= i < |r| ==> IsDigit(r[i]))
              && ParseNat(r) == num
  {
    if num < 0 {
      var r := NatToString(-num);
      assert FormatNumber(num, thousands) == "-" + r;
      assert IsDigit(r[|r| - 1]);
    } else if num < 1000 {
      var r := NatToString(num);
      assert IsDigit(r[|r| - 1]);
      SmallNatLength(num);
      NatToStringRoundTrip(num);
    }
  }

  /** The count of likes a card shows: `post.likes || 0`. */
  function LikesShown(p: Post): int {
    if p.likes.Some? && p.likes.value != 0 then p.likes.value else 0
  }

  /** The count of comments a card shows: `post.comments || 0`. */
  function CommentsShown(p: Post): int {
    if p.comments.Some? && p.comments.value != 0 then p.comments.value else 0
  }

  /** A missing count shows as 0 and a present one as itself. */
  lemma CountsShown(p: Post)
    ensures LikesShown(p) == p.likes.GetOr(0) && CommentsShown(p) == p.comments.GetOr(0)
  {
  }

  /** The badge in the corner of a card. */
  function MediaBadge(t: MediaType): string {
    match t
    case Video => "Video"
    case CarouselAlbum => "Album"
    case Image => "Photo"
  }

  /** The image a card shows: the placeholder for an empty URL. */
  function ImageSource(p: Post): (src: string)
    ensures p.mediaUrl != "" ==> src == p.mediaUrl
    ensures src != ""
  {
    if p.mediaUrl == "" then "/placeholder.svg" else p.mediaUrl
  }

  /** The target of the follow button. */
  function FollowUrl(s: InstagramSettings): string {
    "https://instagram.com/" + s.username
  }

  /** What the section renders. */
  datatype View = Spinner | ErrorMessage(message: string) | Nothing
                | Grid(posts: seq<Post>, title: string, followUrl: string)

  /** The section's state. */
  class Feed {
    var posts: seq<Post>
    var settings: Option<InstagramSettings>
    var isLoading: bool
    var error: Option<string>

    /** Before the first load: loading, with no settings, no posts and no error. */
    constructor()
      ensures posts == [] && settings.None? && isLoading && error.None?
    {
      posts := [];
      settings := None;
      isLoading := true;
      error := None;
    }

    /** `loadInstagramData`, run on mount and on every "instagramChanged" event:
        read the settings and fetch the posts when the section is enabled and on
        the homepage. A malformed storage entry makes the read throw: the error
        is recorded, the posts are emptied and the settings stay as they were. */
    method LoadData(stored: Option<StoredText>)
      modifies this
      ensures !isLoading
      ensures Load(false, stored).ParseError? ==>
                error == Some("Failed to load Instagram posts") && posts == [] && settings == old(settings)
      ensures Load(false, stored).Loaded? ==>
                var s := Load(false, stored).settings;
                && error.None? && settings == Some(s)
                && posts == (if s.enabled && s.showOnHomepage then FetchPosts(s) else [])
                && (Render().Grid? <==> s.enabled && s.showOnHomepage && FetchPosts(s) != [])
    {
      isLoading := true;
      error := None;
      var loaded := Load(false, stored);
      if loaded.ParseError? {
        error := Some("Failed to load Instagram posts");
        posts := [];
      } else {
        settings := Some(loaded.settings);
        if loaded.settings.enabled && loaded.settings.showOnHomepage {
          posts := FetchPosts(loaded.settings);
        } else {
          posts := [];
        }
      }
      isLoading := false;
    }

    /** The rendering: the spinner while loading, the error if there is one,
        nothing when disabled, off the homepage or without posts, and otherwise
        the grid under the section title with a link to the account. */
    function Render(): (v: View)
      reads this
      ensures v.Grid? <==>
                !isLoading && error.None? && settings.Some? && settings.value.enabled
                && settings.value.showOnHomepage && posts != []
      ensures v.Grid? ==> v.posts == posts && v.title == settings.value.sectionTitle
      ensures v == Spinner <==> isLoading
    {
      if isLoading then Spinner
      else if error.Some? then ErrorMessage(error.value)
      else if settings.None? || !settings.value.enabled || !settings.value.showOnHomepage then Nothing
      else if posts == [] then Nothing
      else Grid(posts, settings.value.sectionTitle, FollowUrl(settings.value))
    }
  }

  /** After a successful load the grid shows the first `displayCount` posts,
      when the count is from 1 to 12, and nothing is shown when the section is
      disabled or off the homepage. */
  lemma LoadedGrid(s: InstagramSettings)
    ensures s.enabled && s.showOnHomepage && 0 < s.displayCount <= 12 ==>
              FetchPosts(s) == MockPosts[..s.displayCount] && FetchPosts(s) != []
    ensures s.enabled && s.showOnHomepage && s.displayCount == 0 ==> FetchPosts(s) == []
  {
    if s.enabled {
      FetchPostsCount(s);
    }
  }
}
