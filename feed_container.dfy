/** The home feed: the list of posts, into which a submission from the
    composer is turned into a new post and put first. */
module Feed {
  import opened Lists
  import opened Text
  import PostComposer

  datatype PostType = Photo | RideLog | Route {
    function Name(): string {
      match this
      case Photo => "photo"
      case RideLog => "ride_log"
      case Route => "route"
    }
  }

  datatype Difficulty = Easy | Moderate | Hard | Extreme

  datatype RideDetails = RideDetails(
    distance: Option<string>, duration: Option<string>,
    location: Option<string>, date: Option<string>)

  datatype RouteDetails = RouteDetails(
    startPoint: Option<string>, endPoint: Option<string>,
    difficulty: Option<Difficulty>,
    scenicSpots: Option<seq<string>>, pitStops: Option<seq<string>>)

  datatype Post = Post(
    id: string,
    userAvatar: string,
    userName: string,
    userHandle: string,
    postTime: string,
    postContent: string,
    postImages: Option<seq<string>>,
    postType: PostType,
    rideDetails: Option<RideDetails>,
    routeDetails: Option<RouteDetails>,
    likes: int,
    comments: int,
    shares: int)

  const CurrentUserAvatar := "https://api.dicebear.com/7.x/avataaars/svg?seed=currentUser"

  /** `type === "ride" ? "ride_log" : type`. */
  function PostTypeOf(t: PostComposer.Tab): (p: PostType)
    ensures p.Name() == if t.Name() == "ride" then "ride_log" else t.Name()
  {
    match t
    case Photo => Photo
    case Ride => RideLog
    case Route => Route
  }

  /** The tab can be read back from the post type: no two tabs collide. */
  lemma PostTypeOfInjective(a: PostComposer.Tab, b: PostComposer.Tab)
    ensures PostTypeOf(a) == PostTypeOf(b) <==> a == b
  {
  }

  /** The id of a post created at `now`: `temp-${Date.now()}`. */
  function TempId(now: nat): (id: string)
    ensures |id| > 5 && id[..5] == "temp-"
    ensures AllDigits(id[5..]) && ParseDigits(id[5..]) == now
  {
    ParseDigitsOfDigits(now);
    "temp-" + Digits(now)
  }

  /** Posts created at different times get different ids. */
  lemma TempIdsDistinct(t1: nat, t2: nat)
    ensures TempId(t1) == TempId(t2) <==> t1 == t2
  {
    if TempId(t1) == TempId(t2) {
      assert Digits(t1) == TempId(t1)[5..] == TempId(t2)[5..] == Digits(t2);
      DigitsInjective(t1, t2);
    }
  }

  /** The post `handlePostCreate` builds from a submission. */
  function NewPost(data: PostComposer.Submission, now: nat): (p: Post)
    ensures p.id == TempId(now)
    ensures p.postContent == data.content
    ensures p.postType == PostTypeOf(data.tab)
    ensures p.likes == 0 && p.comments == 0 && p.shares == 0
    ensures p.postImages == None && p.rideDetails == None && p.routeDetails == None
  {
    Post(TempId(now), CurrentUserAvatar, "Current User", "@currentuser", "Just now",
         data.content, None, PostTypeOf(data.tab), None, None, 0, 0, 0)
  }

  class FeedContainer {
    var feedPosts: seq<Post>

    constructor (posts: seq<Post>)
      ensures feedPosts == posts
    {
      feedPosts := posts;
    }

    /** "No posts yet" is rendered exactly when the feed is empty. */
    function ShowsEmptyState(): (shown: bool)
      reads this
      ensures shown <==> feedPosts == []
    {
      |feedPosts| == 0
    }

    /** `handlePostCreate`: forwards the submission unchanged to the
        parent's `onPostCreate`, then puts the new post first. */
    method HandlePostCreate(data: PostComposer.Submission, now: nat)
      returns (forwarded: PostComposer.Submission)
      modifies this
      ensures forwarded == data
      ensures feedPosts == [NewPost(data, now)] + old(feedPosts)
      ensures !ShowsEmptyState()
    {
      forwarded := data;
      var newPost := NewPost(data, now);
      feedPosts := [newPost] + feedPosts;
    }
  }

  /** The composer wired to the feed (`onPostCreate={handlePostCreate}`):
      one click on the Post button. While the content is blank the button
      is disabled (`disabled={!content.trim()}`), the click runs no handler
      and nothing is forwarded; otherwise the submission reaches the feed
      as its new first post, whose content has a non-whitespace character. */
  method PostFromComposer(card: PostComposer.CreatePostCard, feed: FeedContainer, now: nat)
    returns (forwarded: Option<PostComposer.Submission>)
    modifies card, feed
    ensures forwarded.Some? <==> old(card.CanPost())
    ensures forwarded.None? ==>
      && feed.feedPosts == old(feed.feedPosts)
      && card.content == old(card.content) && card.activeTab == old(card.activeTab)
    ensures forwarded.Some? ==>
      && forwarded.value == PostComposer.Submission(old(card.activeTab), old(card.content))
      && |feed.feedPosts| == |old(feed.feedPosts)| + 1
      && feed.feedPosts[0].postContent == old(card.content)
      && (exists i :: 0 <= i < |feed.feedPosts[0].postContent| &&
            !IsJsWhitespace(feed.feedPosts[0].postContent[i]))
      && feed.feedPosts[0].postType == PostTypeOf(old(card.activeTab))
      && feed.feedPosts[1..] == old(feed.feedPosts)
      && card.content == "" && card.activeTab == old(card.activeTab)
  {
    if !card.CanPost() {
      return None;
    }
    var i :| 0 <= i < |card.content| && !IsJsWhitespace(card.content[i]);
    var emitted := card.Submit();
    var data := feed.HandlePostCreate(emitted, now);
    assert !IsJsWhitespace(feed.feedPosts[0].postContent[i]);
    forwarded := Some(data);
  }
}
