/**
 * The Instagram scraper: reading a public profile and its most recent posts, and reconciling
 * what was read with the competitor tables (one snapshot per competitor and day, posts
 * deduplicated by competitor and URL). The remote profile and its post stream are inputs;
 * the current date is a parameter.
 */
module IgScraper {
  import opened Common
  import opened Tables
  import opened Store

  // ---------------------------------------------------------------------------------------
  // What the remote returns
  // ---------------------------------------------------------------------------------------

  /** A post as the scraping library yields it; `caption` is None when the post has none. */
  datatype RemotePost = RemotePost(
    shortcode: string, typename: string, isVideo: bool, caption: Option<string>,
    postedAt: string, likes: int, comments: int, videoViews: int)

  /** The profile fields the scraper reads. */
  datatype RemoteProfile = RemoteProfile(
    fullName: string, biography: string, followers: int, followees: int, mediacount: int, isPrivate: bool)

  /**
   * Looking a handle up: the profile does not exist, the connection fails, or the profile is
   * found together with its post stream, newest first. `failure` is Some(reason) when asking
   * the stream for the post after the last one listed raises a connection error.
   */
  datatype Lookup =
    | NoSuchProfile
    | Unreachable(reason: string)
    | Found(profile: RemoteProfile, posts: seq<RemotePost>, failure: Option<string>)

  // ---------------------------------------------------------------------------------------
  // Per-post mapping
  // ---------------------------------------------------------------------------------------

  /** A post as the scraper reports it. */
  datatype ScrapedPost = ScrapedPost(
    shortcode: string, postUrl: string, postedAt: string, contentType: ContentType,
    caption: string, captionSnippet: Option<string>, likes: int, comments: int,
    videoViews: Option<int>, engagement: Engagement)

  /** The content type: a sidecar is a carousel, else a video post is a video, else an image. */
  function ContentTypeOf(typename: string, isVideo: bool): (r: ContentType)
    ensures r == Carousel <==> typename == "GraphSidecar"
    ensures r == Video <==> typename != "GraphSidecar" && isVideo
    ensures r == Image <==> typename != "GraphSidecar" && !isVideo
  {
    if typename == "GraphSidecar" then Carousel
    else if isVideo then Video
    else Image
  }

  /** The caption shortened for storage: its first 200 characters, None for an empty caption. */
  function CaptionSnippet(caption: string): (r: Option<string>)
    ensures r.None? <==> caption == []
    ensures r.Some? ==> |r.value| == (if |caption| < 200 then |caption| else 200) && StartsWith(caption, r.value)
  {
    if caption == [] then None else Some(Prefix(caption, 200))
  }

  /** The engagement estimate: the literal 0 for a profile without followers, else the ratio. */
  function EngagementOf(likes: int, comments: int, followers: int): (r: Engagement)
    ensures r == NoFollowers <==> followers <= 0
    ensures r.Ratio? ==> r.interactions == likes + comments && r.followers == followers > 0
  {
    if followers > 0 then Ratio(likes + comments, followers) else NoFollowers
  }

  /** The permalink of a post. */
  function PostUrl(shortcode: string): string {
    "https://www.instagram.com/p/" + shortcode + "/"
  }

  function ToPost(p: RemotePost, followers: int): ScrapedPost {
    var caption := if p.caption.Some? then p.caption.value else "";
    ScrapedPost(
      p.shortcode, PostUrl(p.shortcode), p.postedAt, ContentTypeOf(p.typename, p.isVideo),
      caption, CaptionSnippet(caption), p.likes, p.comments,
      if p.isVideo then Some(p.videoViews) else None,
      EngagementOf(p.likes, p.comments, followers))
  }

  /** Every post mapped, in stream order. */
  function ToPosts(ps: seq<RemotePost>, followers: int): (r: seq<ScrapedPost>)
    ensures |r| == |ps|
    ensures forall i :: 0 <= i < |ps| ==> r[i] == ToPost(ps[i], followers)
  {
    if ps == [] then [] else ToPosts(ps[..|ps| - 1], followers) + [ToPost(ps[|ps| - 1], followers)]
  }

  lemma ToPostsStep(ps: seq<RemotePost>, i: int, followers: int)
    requires 0 <= i < |ps|
    ensures ToPosts(ps[..i + 1], followers) == ToPosts(ps[..i], followers) + [ToPost(ps[i], followers)]
  {
    assert ps[..i + 1][..i] == ps[..i];
  }

  // ---------------------------------------------------------------------------------------
  // Scraping one profile
  // ---------------------------------------------------------------------------------------

  /** What scraping returns: an error, or the profile with its posts and an optional warning. */
  datatype Scraped =
    | ScrapeError(message: string)
    | Scraped(
        handle: string, fullName: string, bio: string, followers: int, following: int,
        totalPosts: int, isPrivate: bool, posts: seq<ScrapedPost>, warning: Option<string>)

  /**
   * How many posts the loop keeps from a stream of n: it stops at the first post whose
   * position reaches the limit, so a limit of 0 or less keeps none.
   */
  function Taken(n: nat, maxPosts: int): (k: nat)
    ensures k <= n && (maxPosts <= 0 ==> k == 0) && (maxPosts > 0 ==> k <= maxPosts)
    ensures k < n ==> k == maxPosts || (maxPosts <= 0 && k == 0)
  {
    if maxPosts <= 0 then 0 else if n < maxPosts then n else maxPosts
  }

  /**
   * The loop asks the stream for one post beyond the ones it keeps unless the limit stops it
   * first; a stream failure is met exactly when every post of the stream was kept.
   */
  predicate ReachesEnd(n: nat, maxPosts: int) {
    n == 0 || n <= maxPosts
  }

  /** `scrape_profile`. */
  function Scrape(handle: string, lookup: Lookup, maxPosts: int): Scraped {
    match lookup
    case NoSuchProfile => ScrapeError("Profile @" + handle + " not found")
    case Unreachable(reason) => ScrapeError("Connection error for @" + handle + ": " + reason)
    case Found(p, items, failure) =>
      var posts := if p.isPrivate then [] else ToPosts(items[..Taken(|items|, maxPosts)], p.followers);
      var warning :=
        if !p.isPrivate && failure.Some? && ReachesEnd(|items|, maxPosts)
        then Some("Partial data: " + failure.value) else None;
      Scraped(handle, p.fullName, p.biography, p.followers, p.followees, p.mediacount, p.isPrivate, posts, warning)
  }

  /**
   * What a scrape promises: at most `maxPosts` posts, none for a private profile, the kept
   * posts are the newest ones in stream order, and a public profile keeps exactly the first
   * `Taken` of its stream. It gets a warning exactly when the stream failed and the loop asked
   * for the post after the last one, in which case the posts gathered so far are returned.
   */
  lemma ScrapeBounds(handle: string, lookup: Lookup, maxPosts: int)
    requires lookup.Found?
    ensures var r := Scrape(handle, lookup, maxPosts);
      && r.Scraped?
      && |r.posts| <= (if maxPosts <= 0 then 0 else maxPosts)
      && (lookup.profile.isPrivate ==> r.posts == [] && r.warning.None?)
      && (forall i :: 0 <= i < |r.posts| ==> r.posts[i] == ToPost(lookup.posts[i], lookup.profile.followers))
      && (r.warning.Some? ==> lookup.failure.Some? && |r.posts| == |lookup.posts|)
      && (!lookup.profile.isPrivate ==> |r.posts| == Taken(|lookup.posts|, maxPosts))
      && (!lookup.profile.isPrivate ==>
            (r.warning.Some? <==> lookup.failure.Some? && ReachesEnd(|lookup.posts|, maxPosts)))
  {
  }

  /** The scraper's loop over the post stream. */
  method ScrapeProfile(handle: string, lookup: Lookup, maxPosts: int) returns (r: Scraped)
    ensures r == Scrape(handle, lookup, maxPosts)
  {
    match lookup {
      case NoSuchProfile =>
        return ScrapeError("Profile @" + handle + " not found");
      case Unreachable(reason) =>
        return ScrapeError("Connection error for @" + handle + ": " + reason);
      case Found(p, items, failure) =>
        var posts: seq<ScrapedPost> := [];
        var warning: Option<string> := None;
        if !p.isPrivate {
          var i := 0;
          while true
            invariant 0 <= i <= |items| && i <= Taken(|items|, maxPosts)
            invariant posts == ToPosts(items[..i], p.followers)
            invariant warning.None?
            decreases |items| - i
          {
            if i == |items| {
              // asking for the next post: the stream ends, or raises
              if failure.Some? {
                warning := Some("Partial data: " + failure.value);
              }
              break;
            }
            if i >= maxPosts {
              break;
            }
            ToPostsStep(items, i, p.followers);
            posts := posts + [ToPost(items[i], p.followers)];
            i := i + 1;
          }
          assert i == Taken(|items|, maxPosts);
          assert warning.Some? <==> failure.Some? && ReachesEnd(|items|, maxPosts);
        }
        return Scraped(handle, p.fullName, p.biography, p.followers, p.followees, p.mediacount, p.isPrivate, posts, warning);
    }
  }

  // ---------------------------------------------------------------------------------------
  // Snapshots
  // ---------------------------------------------------------------------------------------

  /** The snapshot of competitor c on day d. */
  function SnapKey(c: int, d: string): Snapshot -> bool {
    (s: Snapshot) => s.competitorId == c && s.date == d
  }

  /** The counters the save writes into a snapshot row. */
  datatype Stats = Stats(followers: int, following: int, totalPosts: int, bio: string)

  function Restat(st: Stats): Snapshot -> Snapshot {
    (s: Snapshot) => s.(followers := Some(st.followers), following := Some(st.following),
                        totalPosts := Some(st.totalPosts), bio := Some(st.bio))
  }

  function NewSnapshot(c: int, d: string, st: Stats): Snapshot {
    Snapshot(c, d, Some(st.followers), Some(st.following), Some(st.totalPosts), Some(st.bio))
  }

  /** The day's snapshot: the existing row of (competitor, day) updated in place, else a new row. */
  function SaveSnapshot(t: Table<Snapshot>, c: int, d: string, st: Stats): Table<Snapshot> {
    match FirstId(t.rows, SnapKey(c, d))
    case Some(id) => UpdateById(t, id, Restat(st))
    case None => Insert(t, NewSnapshot(c, d, st))
  }

  /** The update path: the row found is the only one of (competitor, day), and only it changes. */
  lemma SaveSnapshotUpdates(t: Table<Snapshot>, c: int, d: string, st: Stats, id: int)
    requires WellFormed(t) && SnapshotKeysUnique(t)
    requires FirstId(t.rows, SnapKey(c, d)) == Some(id)
    ensures var u := UpdateById(t, id, Restat(st));
      && |u.rows| == |t.rows|
      && (exists i :: 0 <= i < |u.rows| && u.rows[i].val == NewSnapshot(c, d, st))
      && (forall i :: 0 <= i < |t.rows| && SnapKey(c, d)(t.rows[i].val) ==> u.rows[i].val == NewSnapshot(c, d, st))
      && (forall i :: 0 <= i < |t.rows| && !SnapKey(c, d)(t.rows[i].val) ==> u.rows[i] == t.rows[i])
  {
    FirstIdFinds(t.rows, SnapKey(c, d));
    var i0 :| 0 <= i0 < |t.rows| && t.rows[i0].id == id && SnapKey(c, d)(t.rows[i0].val);
    SnapshotRowUpdated(t, c, d, st, i0);
    SnapshotOthersKept(t, c, d, st, i0);
  }

  /** The row of (competitor, day) takes the new counters, and it is the only row of that key. */
  lemma SnapshotRowUpdated(t: Table<Snapshot>, c: int, d: string, st: Stats, i0: int)
    requires WellFormed(t) && SnapshotKeysUnique(t)
    requires 0 <= i0 < |t.rows| && SnapKey(c, d)(t.rows[i0].val)
    ensures var u := UpdateById(t, t.rows[i0].id, Restat(st));
      && u.rows[i0].val == NewSnapshot(c, d, st)
      && (forall i :: 0 <= i < |t.rows| && SnapKey(c, d)(t.rows[i].val) ==> i == i0)
  {
    forall i | 0 <= i < |t.rows| && i != i0 ensures !SnapKey(c, d)(t.rows[i].val) {
      OtherSnapshotDiffers(t, c, d, i0, i);
    }
  }

  /** Every row of another key is left as it was. */
  lemma SnapshotOthersKept(t: Table<Snapshot>, c: int, d: string, st: Stats, i0: int)
    requires WellFormed(t) && SnapshotKeysUnique(t)
    requires 0 <= i0 < |t.rows| && SnapKey(c, d)(t.rows[i0].val)
    ensures var u := UpdateById(t, t.rows[i0].id, Restat(st));
      forall i :: 0 <= i < |t.rows| && !SnapKey(c, d)(t.rows[i].val) ==> u.rows[i] == t.rows[i]
  {
    var u := UpdateById(t, t.rows[i0].id, Restat(st));
    forall i | 0 <= i < |t.rows| && !SnapKey(c, d)(t.rows[i].val) ensures u.rows[i] == t.rows[i] {
      assert i != i0;
      OtherSnapshotDiffers(t, c, d, i0, i);
    }
  }

  /** Any other row has another key and, the table being keyed by (competitor, day), another day or competitor. */
  lemma OtherSnapshotDiffers(t: Table<Snapshot>, c: int, d: string, i0: int, i: int)
    requires WellFormed(t) && SnapshotKeysUnique(t)
    requires 0 <= i0 < |t.rows| && 0 <= i < |t.rows| && i != i0
    requires SnapKey(c, d)(t.rows[i0].val)
    ensures t.rows[i].id != t.rows[i0].id && !SnapKey(c, d)(t.rows[i].val)
  {
    if i < i0 {
      assert t.rows[i].id < t.rows[i0].id;
    } else {
      assert t.rows[i0].id < t.rows[i].id;
    }
  }

  /** Snapshot writes keep (competitor, day) unique: an update keeps every row's key. */
  lemma SaveSnapshotKeys(t: Table<Snapshot>, c: int, d: string, st: Stats)
    requires WellFormed(t) && SnapshotKeysUnique(t)
    ensures WellFormed(SaveSnapshot(t, c, d, st)) && SnapshotKeysUnique(SaveSnapshot(t, c, d, st))
  {
    var u := SaveSnapshot(t, c, d, st);
    if FirstId(t.rows, SnapKey(c, d)).None? {
      forall i, j | 0 <= i < j < |u.rows|
        ensures u.rows[i].val.competitorId != u.rows[j].val.competitorId || u.rows[i].val.date != u.rows[j].val.date
      {
        if j == |t.rows| {
          assert !SnapKey(c, d)(t.rows[i].val);
        }
      }
    } else {
      forall i, j | 0 <= i < j < |u.rows|
        ensures u.rows[i].val.competitorId != u.rows[j].val.competitorId || u.rows[i].val.date != u.rows[j].val.date
      {
        assert t.rows[i].val.competitorId != t.rows[j].val.competitorId || t.rows[i].val.date != t.rows[j].val.date;
      }
    }
  }

  /**
   * After the save there is exactly one snapshot of (competitor, day), carrying the new
   * counters; an existing one is overwritten, not duplicated, and every other snapshot is
   * unchanged.
   */
  lemma SaveSnapshotUnique(t: Table<Snapshot>, c: int, d: string, st: Stats)
    requires WellFormed(t) && SnapshotKeysUnique(t)
    ensures var u := SaveSnapshot(t, c, d, st);
      && WellFormed(u) && SnapshotKeysUnique(u)
      && |u.rows| == |t.rows| + (if Exists(t.rows, SnapKey(c, d)) then 0 else 1)
      && (exists i :: 0 <= i < |u.rows| && u.rows[i].val == NewSnapshot(c, d, st))
      && (forall i :: 0 <= i < |t.rows| && !SnapKey(c, d)(t.rows[i].val) ==> u.rows[i] == t.rows[i])
  {
    SaveSnapshotKeys(t, c, d, st);
    var u := SaveSnapshot(t, c, d, st);
    match FirstId(t.rows, SnapKey(c, d))
    case Some(id) =>
      SaveSnapshotUpdates(t, c, d, st, id);
    case None =>
      assert u.rows[|t.rows|].val == NewSnapshot(c, d, st);
  }

  /**
   * The columns of `competitor_snapshots`. The table has no `updated_at`, unlike the tables
   * whose rows the code edits through the shared update helper.
   */
  const SnapshotColumns: set<string> :=
    {"id", "competitor_id", "snapshot_date", "followers", "following", "total_posts", "bio", "created_at"}

  /** The columns the shared update helper assigns: the ones given, and always `updated_at`. */
  function UpdateRowColumns(keys: seq<string>): (cols: seq<string>)
    ensures "updated_at" in cols
  {
    keys + ["updated_at"]
  }

  /** The store rejects an UPDATE naming a column the table lacks. */
  predicate UpdateAccepted(columns: set<string>, cols: seq<string>) {
    forall i | 0 <= i < |cols| :: cols[i] in columns
  }

  /**
   * The snapshot write as the code issues it: the update of an existing row goes through the
   * shared helper, whose statement sets `updated_at`, so the store raises instead of updating
   * (None). The insert path is unaffected.
   */
  function SaveSnapshotAsWritten(t: Table<Snapshot>, c: int, d: string, st: Stats): (r: Option<Table<Snapshot>>)
    ensures r.None? <==> Exists(t.rows, SnapKey(c, d))
  {
    match FirstId(t.rows, SnapKey(c, d))
    case Some(id) =>
      var cols := UpdateRowColumns(["followers", "following", "total_posts", "bio"]);
      assert cols[4] == "updated_at" && cols[4] !in SnapshotColumns;
      if UpdateAccepted(SnapshotColumns, cols) then Some(UpdateById(t, id, Restat(st))) else None
    case None => Some(Insert(t, NewSnapshot(c, d, st)))
  }

  /**
   * The second save of the same competitor on the same day: the first one inserts the row,
   * the second one raises, so the day's counters can never be refreshed and the posts of the
   * second scrape are never saved.
   */
  lemma SecondSaveSameDayFails(t: Table<Snapshot>, c: int, d: string, st1: Stats, st2: Stats)
    requires !Exists(t.rows, SnapKey(c, d))
    ensures SaveSnapshotAsWritten(t, c, d, st1).Some?
    ensures SaveSnapshotAsWritten(SaveSnapshotAsWritten(t, c, d, st1).value, c, d, st2).None?
  {
    var u := SaveSnapshotAsWritten(t, c, d, st1).value;
    assert SnapKey(c, d)(u.rows[|t.rows|].val);
  }

  // ---------------------------------------------------------------------------------------
  // Posts
  // ---------------------------------------------------------------------------------------

  /** The post of competitor c at URL url. */
  function PostKey(c: int, url: string): CompetitorPost -> bool {
    (p: CompetitorPost) => p.competitorId == c && p.url == url
  }

  function NewPost(c: int, p: ScrapedPost): CompetitorPost {
    CompetitorPost(c, p.postUrl, p.postedAt, p.contentType, p.captionSnippet, p.likes, p.comments,
                   Some(p.engagement), None, None, false)
  }

  /** The posts table and the number of posts added so far. */
  datatype PostsSaved = PostsSaved(posts: Table<CompetitorPost>, added: nat)

  /** One post: skipped when (competitor, URL) is already stored, else inserted and counted. */
  function SavePost(s: PostsSaved, c: int, p: ScrapedPost): PostsSaved {
    if Exists(s.posts.rows, PostKey(c, p.postUrl)) then s
    else PostsSaved(Insert(s.posts, NewPost(c, p)), s.added + 1)
  }

  /** The scraped posts in order. */
  function SavePosts(s: PostsSaved, c: int, ps: seq<ScrapedPost>): PostsSaved {
    if ps == [] then s else SavePost(SavePosts(s, c, ps[..|ps| - 1]), c, ps[|ps| - 1])
  }

  /** Saving posts only appends, one row per post counted as added, so no more than were scraped. */
  lemma {:induction false} SavePostsAppends(s: PostsSaved, c: int, ps: seq<ScrapedPost>)
    ensures var u := SavePosts(s, c, ps);
      && Appended(s.posts, u.posts)
      && u.added - s.added == |u.posts.rows| - |s.posts.rows| <= |ps|
  {
    if ps == [] {
      AppendedRefl(s.posts);
    } else {
      var s0 := SavePosts(s, c, ps[..|ps| - 1]);
      SavePostsAppends(s, c, ps[..|ps| - 1]);
      if Exists(s0.posts.rows, PostKey(c, ps[|ps| - 1].postUrl)) {
        AppendedRefl(s0.posts);
      } else {
        AppendedInsert(s0.posts, NewPost(c, ps[|ps| - 1]));
      }
      AppendedTrans(s.posts, s0.posts, SavePosts(s, c, ps).posts);
    }
  }

  lemma PostKnownStays(t: Table<CompetitorPost>, u: Table<CompetitorPost>, c: int, url: string)
    requires Appended(t, u) && Exists(t.rows, PostKey(c, url))
    ensures Exists(u.rows, PostKey(c, url))
  {
    var i :| 0 <= i < |t.rows| && PostKey(c, url)(t.rows[i].val);
    assert u.rows[..|t.rows|][i] == u.rows[i];
  }

  /** After saving, every scraped post's (competitor, URL) is stored, repeats in the batch included. */
  lemma {:induction false} SavePostsCovers(s: PostsSaved, c: int, ps: seq<ScrapedPost>)
    ensures forall i | 0 <= i < |ps| :: Exists(SavePosts(s, c, ps).posts.rows, PostKey(c, ps[i].postUrl))
  {
    if ps != [] {
      var init := ps[..|ps| - 1];
      var p := ps[|ps| - 1];
      var s0 := SavePosts(s, c, init);
      var u := SavePost(s0, c, p);
      SavePostsCovers(s, c, init);
      if Exists(s0.posts.rows, PostKey(c, p.postUrl)) {
        AppendedRefl(s0.posts);
      } else {
        AppendedInsert(s0.posts, NewPost(c, p));
        assert PostKey(c, p.postUrl)(u.posts.rows[|s0.posts.rows|].val);
      }
      forall i | 0 <= i < |init| ensures Exists(u.posts.rows, PostKey(c, ps[i].postUrl)) {
        assert init[i] == ps[i];
        PostKnownStays(s0.posts, u.posts, c, ps[i].postUrl);
      }
    }
  }

  /** Posts already stored change nothing and add nothing. */
  lemma {:induction false} SavePostsSettled(s: PostsSaved, c: int, ps: seq<ScrapedPost>)
    requires forall i | 0 <= i < |ps| :: Exists(s.posts.rows, PostKey(c, ps[i].postUrl))
    ensures SavePosts(s, c, ps) == s
  {
    if ps != [] {
      SavePostsSettled(s, c, ps[..|ps| - 1]);
    }
  }

  /** No two stored posts of competitor c share a URL. */
  ghost predicate PostUrlsUnique(t: Table<CompetitorPost>, c: int) {
    forall i, j :: 0 <= i < j < |t.rows| && t.rows[i].val.competitorId == c && t.rows[j].val.competitorId == c
      ==> t.rows[i].val.url != t.rows[j].val.url
  }

  /** Saving never stores a second post of the competitor under a URL it already has. */
  lemma {:induction false} SavePostsUnique(s: PostsSaved, c: int, ps: seq<ScrapedPost>)
    requires PostUrlsUnique(s.posts, c)
    ensures PostUrlsUnique(SavePosts(s, c, ps).posts, c)
  {
    if ps != [] {
      var s0 := SavePosts(s, c, ps[..|ps| - 1]);
      var p := ps[|ps| - 1];
      SavePostsUnique(s, c, ps[..|ps| - 1]);
      if !Exists(s0.posts.rows, PostKey(c, p.postUrl)) {
        var u := SavePost(s0, c, p).posts;
        forall i, j | 0 <= i < j < |u.rows| && u.rows[i].val.competitorId == c && u.rows[j].val.competitorId == c
          ensures u.rows[i].val.url != u.rows[j].val.url
        {
          if j == |s0.posts.rows| {
            assert !PostKey(c, p.postUrl)(s0.posts.rows[i].val);
          } else {
            assert u.rows[i] == s0.posts.rows[i] && u.rows[j] == s0.posts.rows[j];
          }
        }
      }
    }
  }

  // ---------------------------------------------------------------------------------------
  // Saving one scrape
  // ---------------------------------------------------------------------------------------

  /** What the save reports. */
  datatype SaveResult =
    | Failed(error: string)
    | Saved(handle: string, followers: int, postsScraped: nat, postsAdded: nat, postsSkipped: int)

  /** The competitor tables the save writes, and its report. */
  datatype Saving = Saving(snapshots: Table<Snapshot>, posts: Table<CompetitorPost>, result: SaveResult)

  /** The competitor row with handle h. */
  function HandleIs(h: string): Competitor -> bool {
    (c: Competitor) => c.handle == h
  }

  /** The message for a handle with no competitor row. */
  function NotFound(handle: string): string {
    "Competitor @" + handle + " not found in database. Add them first."
  }

  /** `save_to_db`, with the snapshot update path as evidently intended. */
  function SaveRun(handle: string, data: Scraped, today: string, competitors: Table<Competitor>,
                   snapshots: Table<Snapshot>, posts: Table<CompetitorPost>): Saving
  {
    if data.ScrapeError? then Saving(snapshots, posts, Failed(data.message))
    else match FirstId(competitors.rows, HandleIs(handle))
      case None => Saving(snapshots, posts, Failed(NotFound(handle)))
      case Some(c) =>
        var snaps := SaveSnapshot(snapshots, c, today, Stats(data.followers, data.following, data.totalPosts, data.bio));
        var saved := SavePosts(PostsSaved(posts, 0), c, data.posts);
        Saving(snaps, saved.posts, Saved(handle, data.followers, |data.posts|, saved.added, |data.posts| - saved.added))
  }

  /** The save of a found competitor: its snapshot, then its posts. */
  lemma SaveRunFound(handle: string, data: Scraped, today: string, competitors: Table<Competitor>,
                     snapshots: Table<Snapshot>, posts: Table<CompetitorPost>, c: int)
    requires data.Scraped? && FirstId(competitors.rows, HandleIs(handle)) == Some(c)
    ensures SaveRun(handle, data, today, competitors, snapshots, posts).snapshots
         == SaveSnapshot(snapshots, c, today, Stats(data.followers, data.following, data.totalPosts, data.bio))
    ensures SaveRun(handle, data, today, competitors, snapshots, posts).posts
         == SavePosts(PostsSaved(posts, 0), c, data.posts).posts
    ensures var added := SavePosts(PostsSaved(posts, 0), c, data.posts).added;
      SaveRun(handle, data, today, competitors, snapshots, posts).result
         == Saved(handle, data.followers, |data.posts|, added, |data.posts| - added)
  {
  }

  /**
   * A scrape that failed is passed through as the result with nothing written; an unknown
   * handle is an error with nothing written; otherwise added plus skipped is the number
   * scraped, with both counts non-negative.
   */
  lemma SaveRunReports(handle: string, data: Scraped, today: string, competitors: Table<Competitor>,
                       snapshots: Table<Snapshot>, posts: Table<CompetitorPost>)
    ensures var r := SaveRun(handle, data, today, competitors, snapshots, posts);
      && (data.ScrapeError? ==> r == Saving(snapshots, posts, Failed(data.message)))
      && (data.Scraped? && !Exists(competitors.rows, HandleIs(handle)) ==> r.snapshots == snapshots && r.posts == posts && r.result.Failed?)
      && (r.result.Saved? ==>
            && r.result.postsAdded + r.result.postsSkipped == r.result.postsScraped == |data.posts|
            && 0 <= r.result.postsSkipped
            && r.result.postsAdded == |r.posts.rows| - |posts.rows|)
  {
    if data.Scraped? && Exists(competitors.rows, HandleIs(handle)) {
      SavePostsAppends(PostsSaved(posts, 0), FirstId(competitors.rows, HandleIs(handle)).value, data.posts);
    }
  }

  /** Saving the same scrape again on the same day adds no post and leaves both tables as they were. */
  lemma SaveRunTwice(handle: string, data: Scraped, today: string, competitors: Table<Competitor>,
                     snapshots: Table<Snapshot>, posts: Table<CompetitorPost>)
    requires WellFormed(snapshots) && SnapshotKeysUnique(snapshots)
    ensures var r1 := SaveRun(handle, data, today, competitors, snapshots, posts);
      var r2 := SaveRun(handle, data, today, competitors, r1.snapshots, r1.posts);
      && r2.snapshots == r1.snapshots && r2.posts == r1.posts
      && (r2.result.Saved? ==> r2.result.postsAdded == 0)
  {
    if data.Scraped? && Exists(competitors.rows, HandleIs(handle)) {
      var c := FirstId(competitors.rows, HandleIs(handle)).value;
      var st := Stats(data.followers, data.following, data.totalPosts, data.bio);
      var saved := SavePosts(PostsSaved(posts, 0), c, data.posts);
      SavePostsCovers(PostsSaved(posts, 0), c, data.posts);
      SavePostsSettled(PostsSaved(saved.posts, 0), c, data.posts);
      SaveSnapshotTwice(snapshots, c, today, st);
    }
  }

  /** Writing the same counters twice leaves the snapshot table as the first write did. */
  lemma SaveSnapshotTwice(t: Table<Snapshot>, c: int, d: string, st: Stats)
    requires WellFormed(t) && SnapshotKeysUnique(t)
    ensures SaveSnapshot(SaveSnapshot(t, c, d, st), c, d, st) == SaveSnapshot(t, c, d, st)
  {
    var u := SaveSnapshot(t, c, d, st);
    SaveSnapshotUnique(t, c, d, st);
    var v := SaveSnapshot(u, c, d, st);
    var id := FirstId(u.rows, SnapKey(c, d)).value;
    FirstIdFinds(u.rows, SnapKey(c, d));
    assert |v.rows| == |u.rows|;
    forall i | 0 <= i < |u.rows| ensures v.rows[i] == u.rows[i] {
    }
  }

  /** The post loop of the save. */
  lemma SavePostsStep(s: PostsSaved, c: int, ps: seq<ScrapedPost>, i: int)
    requires 0 <= i < |ps|
    ensures SavePosts(s, c, ps[..i + 1]) == SavePost(SavePosts(s, c, ps[..i]), c, ps[i])
  {
    assert ps[..i + 1][..i] == ps[..i];
  }

  method SavePostsLoop(db: Database, c: int, ps: seq<ScrapedPost>) returns (added: nat)
    modifies db`posts
    ensures PostsSaved(db.posts, added) == SavePosts(PostsSaved(old(db.posts), 0), c, ps)
  {
    ghost var s0 := PostsSaved(db.posts, 0);
    added := 0;
    var i := 0;
    while i < |ps|
      invariant 0 <= i <= |ps|
      invariant PostsSaved(db.posts, added) == SavePosts(s0, c, ps[..i])
    {
      SavePostsStep(s0, c, ps, i);
      if !Exists(db.posts.rows, PostKey(c, ps[i].postUrl)) {
        db.posts := Insert(db.posts, NewPost(c, ps[i]));
        added := added + 1;
      }
      i := i + 1;
    }
    assert ps[..i] == ps;
  }

  /** The snapshot half of `save_to_db`: refresh the day's row, or add one. */
  method WriteSnapshot(db: Database, c: int, today: string, st: Stats)
    modifies db`snapshots
    ensures db.snapshots == SaveSnapshot(old(db.snapshots), c, today, st)
  {
    var existing := FirstId(db.snapshots.rows, SnapKey(c, today));
    if existing.Some? {
      db.snapshots := UpdateById(db.snapshots, existing.value, Restat(st));
    } else {
      db.snapshots := Insert(db.snapshots, NewSnapshot(c, today, st));
    }
  }

  /** `save_to_db` on the database, the snapshot update path as evidently intended. */
  method SaveToDb(handle: string, data: Scraped, today: string, db: Database) returns (r: SaveResult)
    modifies db`snapshots, db`posts
    ensures Saving(db.snapshots, db.posts, r) == SaveRun(handle, data, today, db.competitors, old(db.snapshots), old(db.posts))
  {
    if data.ScrapeError? {
      return Failed(data.message);
    }
    ghost var competitors := db.competitors;
    var found := FirstId(db.competitors.rows, HandleIs(handle));
    if found.None? {
      return Failed(NotFound(handle));
    }
    var c := found.value;
    var st := Stats(data.followers, data.following, data.totalPosts, data.bio);
    WriteSnapshot(db, c, today, st);
    var added := SavePostsLoop(db, c, data.posts);
    r := Saved(handle, data.followers, |data.posts|, added, |data.posts| - added);
    ghost var expected := SaveRun(handle, data, today, competitors, old(db.snapshots), old(db.posts));
    SaveRunFound(handle, data, today, competitors, old(db.snapshots), old(db.posts), c);
    assert expected.snapshots == db.snapshots && expected.posts == db.posts && expected.result == r;
    assert db.competitors == competitors;
  }

  // ---------------------------------------------------------------------------------------
  // Scanning every competitor
  // ---------------------------------------------------------------------------------------

  /** String order as the store's binary collation compares text: character by character, a prefix first. */
  predicate NameLe(a: string, b: string) {
    a == [] || (b != [] && (a[0] < b[0] || (a[0] == b[0] && NameLe(a[1..], b[1..]))))
  }

  lemma {:induction false} NameLeTotal(a: string, b: string)
    ensures NameLe(a, b) || NameLe(b, a)
  {
    if a != [] && b != [] && a[0] == b[0] {
      NameLeTotal(a[1..], b[1..]);
    }
  }

  lemma {:induction false} NameLeTrans(a: string, b: string, c: string)
    requires NameLe(a, b) && NameLe(b, c)
    ensures NameLe(a, c)
  {
    if a != [] && a[0] == b[0] && b[0] == c[0] {
      NameLeTrans(a[1..], b[1..], c[1..]);
    }
  }

  /** Rows in name order. */
  ghost predicate ByName(s: seq<Row<Competitor>>) {
    forall i, j :: 0 <= i < j < |s| ==> NameLe(s[i].val.name, s[j].val.name)
  }

  /** r placed after every row whose name does not come after its own. */
  function InsertByName(r: Row<Competitor>, s: seq<Row<Competitor>>): (u: seq<Row<Competitor>>)
    ensures multiset(u) == multiset(s) + multiset{r}
    ensures forall x :: x in u ==> x in s || x == r
  {
    if s == [] then [r]
    else if NameLe(s[|s| - 1].val.name, r.val.name) then s + [r]
    else
      assert s == s[..|s| - 1] + [s[|s| - 1]];
      InsertByName(r, s[..|s| - 1]) + [s[|s| - 1]]
  }

  lemma {:induction false} InsertByNameSorted(r: Row<Competitor>, s: seq<Row<Competitor>>)
    requires ByName(s)
    ensures ByName(InsertByName(r, s))
  {
    if s != [] {
      var last := s[|s| - 1];
      var init := s[..|s| - 1];
      var u := InsertByName(r, s);
      if NameLe(last.val.name, r.val.name) {
        forall i, j | 0 <= i < j < |u| ensures NameLe(u[i].val.name, u[j].val.name) {
          if j == |s| && i < |s| - 1 {
            NameLeTrans(s[i].val.name, last.val.name, r.val.name);
          }
        }
      } else {
        NameLeTotal(last.val.name, r.val.name);
        var v := InsertByName(r, init);
        InsertByNameSorted(r, init);
        forall i, j | 0 <= i < j < |u| ensures NameLe(u[i].val.name, u[j].val.name) {
          if j == |v| {
            assert u[i] == v[i] && v[i] in v;
            if v[i] != r {
              var k :| 0 <= k < |init| && init[k] == v[i];
              assert s[k] == init[k];
            }
          } else {
            assert u[i] == v[i] && u[j] == v[j];
          }
        }
      }
    }
  }

  /** `ORDER BY name`: every row, in name order (rows with equal names keep table order). */
  function OrderByName(rows: seq<Row<Competitor>>): (u: seq<Row<Competitor>>)
    ensures multiset(u) == multiset(rows)
    ensures ByName(u)
  {
    if rows == [] then []
    else
      assert rows == rows[..|rows| - 1] + [rows[|rows| - 1]];
      InsertByNameSorted(rows[|rows| - 1], OrderByName(rows[..|rows| - 1]));
      InsertByName(rows[|rows| - 1], OrderByName(rows[..|rows| - 1]))
  }

  /** The tables and the reports after scanning some competitors. */
  datatype Scan = Scan(snapshots: Table<Snapshot>, posts: Table<CompetitorPost>, results: seq<SaveResult>)

  /** Scrape and save each competitor of `order` in turn; `remote` answers each handle's lookup. */
  function ScanRun(remote: string -> Lookup, maxPosts: int, today: string, competitors: Table<Competitor>,
                   order: seq<Row<Competitor>>, s: Scan): Scan
  {
    if order == [] then s
    else ScanStep(remote, maxPosts, today, competitors, order[|order| - 1],
                  ScanRun(remote, maxPosts, today, competitors, order[..|order| - 1], s))
  }

  /** Scrape and save one competitor, adding its report. */
  function ScanStep(remote: string -> Lookup, maxPosts: int, today: string, competitors: Table<Competitor>,
                    row: Row<Competitor>, s: Scan): Scan
  {
    var h := row.val.handle;
    var r := SaveRun(h, Scrape(h, remote(h), maxPosts), today, competitors, s.snapshots, s.posts);
    Scan(r.snapshots, r.posts, s.results + [r.result])
  }

  lemma ScanRunStep(remote: string -> Lookup, maxPosts: int, today: string, competitors: Table<Competitor>,
                    order: seq<Row<Competitor>>, i: int, s: Scan)
    requires 0 <= i < |order|
    ensures ScanRun(remote, maxPosts, today, competitors, order[..i + 1], s)
         == ScanStep(remote, maxPosts, today, competitors, order[i], ScanRun(remote, maxPosts, today, competitors, order[..i], s))
  {
    assert order[..i + 1][..i] == order[..i];
  }

  /** A report about a saved competitor names the handle it was asked to save. */
  lemma SaveRunHandle(handle: string, data: Scraped, today: string, competitors: Table<Competitor>,
                      snapshots: Table<Snapshot>, posts: Table<CompetitorPost>)
    ensures var r := SaveRun(handle, data, today, competitors, snapshots, posts).result;
      r.Saved? ==> r.handle == handle
  {
  }

  /** Reports in scan order: each saved report after the first `|prefix|` names its competitor's handle. */
  ghost predicate ReportsFollow(prefix: seq<SaveResult>, results: seq<SaveResult>, order: seq<Row<Competitor>>) {
    && |results| == |prefix| + |order|
    && results[..|prefix|] == prefix
    && forall j :: |prefix| <= j < |results| && results[j].Saved? ==>
         results[j].handle == order[j - |prefix|].val.handle
  }

  /** Appending the report of the next competitor in order keeps the reports following the order. */
  lemma ReportsFollowStep(prefix: seq<SaveResult>, results: seq<SaveResult>, order: seq<Row<Competitor>>,
                          r: SaveResult)
    requires order != [] && ReportsFollow(prefix, results, order[..|order| - 1])
    requires r.Saved? ==> r.handle == order[|order| - 1].val.handle
    ensures ReportsFollow(prefix, results + [r], order)
  {
    var u := results + [r];
    assert u[..|prefix|] == results[..|prefix|];
    forall j | |prefix| <= j < |u| && u[j].Saved?
      ensures u[j].handle == order[j - |prefix|].val.handle
    {
      if j < |results| {
        assert u[j] == results[j];
        assert order[..|order| - 1][j - |prefix|] == order[j - |prefix|];
      }
    }
  }

  /** One report per competitor scanned, in scan order, each about that competitor's handle. */
  lemma {:induction false} ScanRunResults(remote: string -> Lookup, maxPosts: int, today: string,
                                          competitors: Table<Competitor>, order: seq<Row<Competitor>>, s: Scan)
    ensures ReportsFollow(s.results, ScanRun(remote, maxPosts, today, competitors, order, s).results, order)
  {
    if order != [] {
      var init := order[..|order| - 1];
      var s0 := ScanRun(remote, maxPosts, today, competitors, init, s);
      ScanRunResults(remote, maxPosts, today, competitors, init, s);
      assert ScanRun(remote, maxPosts, today, competitors, order, s)
          == ScanStep(remote, maxPosts, today, competitors, order[|order| - 1], s0);
      var h := order[|order| - 1].val.handle;
      var r := SaveRun(h, Scrape(h, remote(h), maxPosts), today, competitors, s0.snapshots, s0.posts);
      SaveRunHandle(h, Scrape(h, remote(h), maxPosts), today, competitors, s0.snapshots, s0.posts);
      ReportsFollowStep(s.results, s0.results, order, r.result);
    } else {
      assert s.results[..|s.results|] == s.results;
    }
  }

  /**
   * `scan_all`: every tracked competitor in name order is scraped and saved, one report each;
   * the count scanned is the number of reports, which is the number of competitors.
   */
  method ScanAll(remote: string -> Lookup, maxPosts: int, today: string, db: Database)
    returns (scanned: nat, results: seq<SaveResult>)
    modifies db`snapshots, db`posts
    ensures scanned == |results| == |db.competitors.rows|
    ensures Scan(db.snapshots, db.posts, results)
         == ScanRun(remote, maxPosts, today, db.competitors, OrderByName(db.competitors.rows), Scan(old(db.snapshots), old(db.posts), []))
  {
    var order := OrderByName(db.competitors.rows);
    assert |order| == |multiset(order)| == |db.competitors.rows|;
    ghost var s0 := Scan(db.snapshots, db.posts, []);
    results := [];
    var i := 0;
    while i < |order|
      invariant 0 <= i <= |order|
      invariant Scan(db.snapshots, db.posts, results) == ScanRun(remote, maxPosts, today, db.competitors, order[..i], s0)
    {
      ScanRunStep(remote, maxPosts, today, db.competitors, order, i, s0);
      var h := order[i].val.handle;
      var data := ScrapeProfile(h, remote(h), maxPosts);
      var r := SaveToDb(h, data, today, db);
      results := results + [r];
      i := i + 1;
    }
    assert order[..i] == order;
    ScanRunResults(remote, maxPosts, today, db.competitors, order, s0);
    scanned := |results|;
  }
}
