/** The Instagram section of lib/instagram.ts: display settings kept under the
    localStorage key "instagramSettings" and read back over defaults, and a fixed
    list of demonstration posts of which the first few are shown. */
module Instagram {
  import opened Common

  datatype MediaType = Image | Video | CarouselAlbum

  /** A post; the optional fields may be missing. */
  datatype Post = Post(
    id: string,
    caption: string,
    mediaType: MediaType,
    mediaUrl: string,
    permalink: string,
    timestamp: string,
    username: Option<string>,
    likes: Option<int>,
    comments: Option<int>)

  datatype InstagramSettings = InstagramSettings(
    enabled: bool,
    displayCount: int,
    showOnHomepage: bool,
    sectionTitle: string,
    username: string)

  /** The fields a stored or changed record supplies. */
  datatype SettingsPatch = SettingsPatch(
    enabled: Option<bool>,
    displayCount: Option<int>,
    showOnHomepage: Option<bool>,
    sectionTitle: Option<string>,
    username: Option<string>)

  const Defaults: InstagramSettings :=
    InstagramSettings(true, 6, true, "Follow Us on Instagram", "deliciousrecipes")

  /** `{ ...s, ...p }`. */
  function Overlay(s: InstagramSettings, p: SettingsPatch): InstagramSettings {
    InstagramSettings(p.enabled.GetOr(s.enabled), p.displayCount.GetOr(s.displayCount),
                      p.showOnHomepage.GetOr(s.showOnHomepage), p.sectionTitle.GetOr(s.sectionTitle),
                      p.username.GetOr(s.username))
  }

  function AsPatch(s: InstagramSettings): SettingsPatch {
    SettingsPatch(Some(s.enabled), Some(s.displayCount), Some(s.showOnHomepage), Some(s.sectionTitle), Some(s.username))
  }

  /** What the storage key can hold: the empty string, text that is not JSON, or
      a JSON record with some of the fields. */
  datatype StoredText = Blank | Malformed | Record(fields: SettingsPatch)

  /** The outcome of reading the settings: `JSON.parse` throws on malformed text. */
  datatype Loaded = Loaded(settings: InstagramSettings) | ParseError

  /** `getInstagramSettings`: the defaults on the server and for a missing or
      empty entry, the stored fields over the defaults otherwise. */
  function Load(onServer: bool, stored: Option<StoredText>): (r: Loaded)
    ensures r.ParseError? <==> !onServer && stored == Some(Malformed)
    ensures onServer || stored.None? || stored == Some(Blank) ==> r == Loaded(Defaults)
  {
    if onServer then Loaded(Defaults)
    else match stored
      case None => Loaded(Defaults)
      case Some(Blank) => Loaded(Defaults)
      case Some(Malformed) => ParseError
      case Some(Record(p)) => Loaded(Overlay(Defaults, p))
  }

  /** `saveInstagramSettings`: the new content of the key; nothing on the server. */
  function Save(onServer: bool, stored: Option<StoredText>, s: InstagramSettings): Option<StoredText> {
    if onServer then stored else Some(Record(AsPatch(s)))
  }

  /** Loading keeps each stored field and takes the missing ones from the defaults. */
  lemma LoadCorrect(p: SettingsPatch)
    ensures var s := Load(false, Some(Record(p))).settings;
            && s.enabled == (if p.enabled.Some? then p.enabled.value else true)
            && s.displayCount == (if p.displayCount.Some? then p.displayCount.value else 6)
            && s.showOnHomepage == (if p.showOnHomepage.Some? then p.showOnHomepage.value else true)
            && s.sectionTitle == (if p.sectionTitle.Some? then p.sectionTitle.value else "Follow Us on Instagram")
            && s.username == (if p.username.Some? then p.username.value else "deliciousrecipes")
  {
  }

  /** In the browser what is saved is what is loaded next; on the server saving
      changes nothing and loading gives the defaults. */
  lemma SaveThenLoad(onServer: bool, stored: Option<StoredText>, s: InstagramSettings)
    ensures !onServer ==> Load(onServer, Save(onServer, stored, s)) == Loaded(s)
    ensures onServer ==> Save(onServer, stored, s) == stored && Load(onServer, stored) == Loaded(Defaults)
  {
  }

  // The demonstration posts, newest first.
  const Post1: Post := Post("1",
         "Fresh homemade pasta with basil and tomatoes \U{1F35D} Perfect for a cozy dinner! Recipe coming soon to the blog! #pasta #homemade #cooking #italian #foodie",
         Image, "/placeholder.svg?height=400&width=400&text=\U{1F35D}+Fresh+Pasta&bg=f8f4e6",
         "https://instagram.com/p/pasta-dish", "2024-01-15T10:30:00Z", Some("deliciousrecipes"), Some(247), Some(18))
  const Post2: Post := Post("2",
         "Behind the scenes: prepping ingredients for tonight's special \U{1F468}\U{200D}\U{1F373} The magic happens in the prep work! What's your favorite cooking prep tip? #prep #cooking #chef #behindthescenes #kitchenlife",
         Image, "/placeholder.svg?height=400&width=400&text=\U{1F468}\U{200D}\U{1F373}+Kitchen+Prep&bg=e8f5e8",
         "https://instagram.com/p/kitchen-prep", "2024-01-14T15:45:00Z", Some("deliciousrecipes"), Some(189), Some(12))
  const Post3: Post := Post("3",
         "Perfect chocolate chip cookies fresh from the oven! \U{1F36A} These are a family favorite - crispy edges, chewy center. Recipe link in bio! #cookies #baking #chocolate #homemade #sweet",
         Image, "/placeholder.svg?height=400&width=400&text=\U{1F36A}+Fresh+Cookies&bg=f4e4d6",
         "https://instagram.com/p/chocolate-cookies", "2024-01-13T12:20:00Z", Some("deliciousrecipes"), Some(312), Some(25))
  const Post4: Post := Post("4",
         "Sunday brunch vibes with these fluffy pancakes \U{1F95E} Nothing beats a lazy weekend morning with good food and great company! #brunch #pancakes #weekend #fluffy #breakfast",
         Image, "/placeholder.svg?height=400&width=400&text=\U{1F95E}+Fluffy+Pancakes&bg=fff8dc",
         "https://instagram.com/p/sunday-pancakes", "2024-01-12T09:15:00Z", Some("deliciousrecipes"), Some(156), Some(8))
  const Post5: Post := Post("5",
         "Fresh garden salad with herbs straight from our garden \U{1F957} Farm to table at its finest! Nothing beats the taste of homegrown ingredients #fresh #salad #garden #organic #healthy",
         Image, "/placeholder.svg?height=400&width=400&text=\U{1F957}+Garden+Salad&bg=f0f8f0",
         "https://instagram.com/p/garden-salad", "2024-01-11T14:30:00Z", Some("deliciousrecipes"), Some(203), Some(15))
  const Post6: Post := Post("6",
         "Homemade pizza night! \U{1F355} What's your favorite topping combination? Tell us in the comments - we love trying new ideas! #pizza #homemade #dinner #family #toppings",
         Image, "/placeholder.svg?height=400&width=400&text=\U{1F355}+Pizza+Night&bg=ffe4e1",
         "https://instagram.com/p/pizza-night", "2024-01-10T18:00:00Z", Some("deliciousrecipes"), Some(278), Some(32))
  const Post7: Post := Post("7",
         "Creamy mushroom risotto that's pure comfort food \U{1F344} Took some patience but so worth it! Swipe for the step-by-step process #risotto #mushroom #comfort #italian #creamy",
         CarouselAlbum, "/placeholder.svg?height=400&width=400&text=\U{1F344}+Mushroom+Risotto&bg=f5f5dc",
         "https://instagram.com/p/mushroom-risotto", "2024-01-09T19:20:00Z", Some("deliciousrecipes"), Some(195), Some(14))
  const Post8: Post := Post("8",
         "Fresh berry tart with vanilla custard \U{1FAD0} Summer flavors that make every bite special! Perfect for entertaining guests #berries #tart #dessert #summer #elegant",
         Image, "/placeholder.svg?height=400&width=400&text=\U{1FAD0}+Berry+Tart&bg=f0f8ff",
         "https://instagram.com/p/berry-tart", "2024-01-08T16:45:00Z", Some("deliciousrecipes"), Some(234), Some(19))
  const Post9: Post := Post("9",
         "Grilled salmon with lemon herb butter \U{1F41F} Healthy, delicious, and ready in 20 minutes! Perfect for busy weeknights #salmon #grilled #healthy #quick #dinner",
         Image, "/placeholder.svg?height=400&width=400&text=\U{1F41F}+Grilled+Salmon&bg=e6f3ff",
         "https://instagram.com/p/grilled-salmon", "2024-01-07T18:30:00Z", Some("deliciousrecipes"), Some(167), Some(11))
  const Post10: Post := Post("10",
         "Artisan sourdough bread fresh from the oven \U{1F35E} The smell alone is worth the 3-day process! Nothing beats homemade bread #sourdough #bread #artisan #homemade #baking",
         Image, "/placeholder.svg?height=400&width=400&text=\U{1F35E}+Sourdough+Bread&bg=f5deb3",
         "https://instagram.com/p/sourdough-bread", "2024-01-06T08:15:00Z", Some("deliciousrecipes"), Some(289), Some(23))
  const Post11: Post := Post("11",
         "Colorful veggie stir-fry that's as beautiful as it is nutritious \U{1F308} Quick, healthy, and packed with flavor! #stirfry #vegetables #healthy #colorful #quick",
         Image, "/placeholder.svg?height=400&width=400&text=\U{1F308}+Veggie+Stir+Fry&bg=f0fff0",
         "https://instagram.com/p/veggie-stirfry", "2024-01-05T17:00:00Z", Some("deliciousrecipes"), Some(145), Some(9))
  const Post12: Post := Post("12",
         "Decadent chocolate lava cake with vanilla ice cream \U{1F36B} The perfect ending to any meal! Who else loves that molten center? #chocolate #lavacake #dessert #decadent #molten",
         Video, "/placeholder.svg?height=400&width=400&text=\U{1F36B}+Lava+Cake&bg=2f1b14",
         "https://instagram.com/p/chocolate-lava", "2024-01-04T20:30:00Z", Some("deliciousrecipes"), Some(356), Some(28))

  const MockPosts: seq<Post> :=
    [Post1, Post2, Post3, Post4, Post5, Post6, Post7, Post8, Post9, Post10, Post11, Post12]

  /** `fetchInstagramPosts`: nothing when disabled, otherwise
      `slice(0, displayCount)` of the demonstration posts. */
  function FetchPosts(s: InstagramSettings): (r: seq<Post>)
    ensures r <= MockPosts
    ensures !s.enabled ==> r == []
  {
    if !s.enabled then [] else SlicePrefix(MockPosts, s.displayCount)
  }

  /** Enabled with a count from 0 to 12, exactly that many posts come back, the
      first ones; a larger count gives all twelve, and a negative one drops
      posts from the end. */
  lemma FetchPostsCount(s: InstagramSettings)
    requires s.enabled
    ensures 0 <= s.displayCount <= 12 ==> FetchPosts(s) == MockPosts[..s.displayCount]
    ensures 12 <= s.displayCount ==> FetchPosts(s) == MockPosts
    ensures -12 <= s.displayCount < 0 ==> FetchPosts(s) == MockPosts[..12 + s.displayCount]
  {
  }

  /** The ids of the demonstration posts, in order. */
  const MockIdList: seq<string> := ["1", "2", "3", "4", "5", "6", "7", "8", "9", "10", "11", "12"]

  lemma MockIds()
    ensures |MockPosts| == |MockIdList|
    ensures forall i :: 0 <= i < |MockPosts| ==> MockPosts[i].id == MockIdList[i]
  {
  }

  lemma MockIdListDistinct()
    ensures forall i, j :: 0 <= i < j < |MockIdList| ==> MockIdList[i] != MockIdList[j]
  {
  }

  /** The demonstration posts have twelve distinct ids. */
  lemma MockPostsDistinct()
    ensures |MockPosts| == 12
    ensures forall i, j :: 0 <= i < j < |MockPosts| ==> MockPosts[i].id != MockPosts[j].id
  {
    MockIds();
    MockIdListDistinct();
  }

  /** Every demonstration post carries its like and comment counts. */
  lemma MockPostsCounted()
    ensures forall i :: 0 <= i < |MockPosts| ==> MockPosts[i].likes.Some? && MockPosts[i].comments.Some?
  {
  }
}
