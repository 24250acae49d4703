/** The communities page: the "My Groups" view, the group avatar, the join
    button and the upcoming-events line. */
module Communities {
  import opened Lists

  datatype Group = Group(
    id: string,
    name: string,
    description: string,
    memberCount: int,
    imageUrl: Option<string>,
    category: string,
    isJoined: bool,
    upcomingEvents: Option<int>)

  predicate IsJoined(g: Group) {
    g.isJoined
  }

  /** `myGroups`: the supplied joined groups when there are any, otherwise
      the joined groups in their original order. */
  function MyGroups(joinedGroups: seq<Group>, groups: seq<Group>): (r: seq<Group>)
    ensures |joinedGroups| > 0 ==> r == joinedGroups
    ensures |joinedGroups| == 0 ==>
      && IsSubsequence(r, groups)
      && (forall i :: 0 <= i < |r| ==> r[i].isJoined)
      && (forall i :: 0 <= i < |groups| && groups[i].isJoined ==> groups[i] in r)
      && |r| == Count(groups, IsJoined)
  {
    SavedView(joinedGroups, groups, IsJoined)
  }

  /** The "You haven't joined any groups yet" block is shown exactly when
      no joined groups are supplied and no group is marked joined. */
  lemma EmptyMyGroupsIff(joinedGroups: seq<Group>, groups: seq<Group>)
    ensures MyGroups(joinedGroups, groups) == [] <==>
      joinedGroups == [] && forall i :: 0 <= i < |groups| ==> !groups[i].isJoined
  {
    if joinedGroups == [] && MyGroups(joinedGroups, groups) != [] {
      var r := MyGroups(joinedGroups, groups);
      assert r[0].isJoined;
      assert r[0] in groups by {
        assert r[0] in Filter(groups, IsJoined);
      }
    }
  }

  const AvatarPrefix := "https://api.dicebear.com/7.x/avataaars/svg?seed="

  /** The page's default `groups` prop. */
  const DefaultGroups: seq<Group> := [
    Group("1", "Royal Enfield Enthusiasts",
      "For lovers of the iconic Royal Enfield motorcycles. Share your rides, modifications, and maintenance tips.",
      5280, Some(AvatarPrefix + "royalenfield"), "Motorcycle Brand", false, Some(3)),
    Group("2", "Mumbai Riders Club",
      "Local riding group for Mumbai-based bikers. Weekly rides, meetups, and events around the city and nearby destinations.",
      3450, Some(AvatarPrefix + "mumbairiders"), "Regional Club", true, Some(2)),
    Group("3", "Vintage Car Collectors",
      "Celebrating classic and vintage automobiles. Discuss restoration, parts sourcing, and showcase your prized possessions.",
      1890, Some(AvatarPrefix + "vintagecars"), "Special Interest", false, Some(1)),
    Group("4", "Himalayan Adventurers",
      "For riders who love exploring the Himalayan routes. Share experiences, tips, and plan group expeditions.",
      2760, Some(AvatarPrefix + "himalayan"), "Adventure", false, Some(2)),
    Group("5", "Superbike Owners India",
      "Exclusive community for superbike owners in India. Track days, maintenance discussions, and high-performance riding tips.",
      1250, Some(AvatarPrefix + "superbikes"), "Motorcycle Type", false, Some(4)),
    Group("6", "Bangalore Weekend Riders",
      "Weekend riding group based in Bangalore. Explore coffee estates, hill stations, and scenic routes around the city.",
      4120, Some(AvatarPrefix + "bangaloreriders"), "Regional Club", true, Some(3))
  ]

  /** With the default props the My Groups tab lists groups "2" and "6",
      in that order. */
  lemma DefaultMyGroups()
    ensures MyGroups([], DefaultGroups) == [DefaultGroups[1], DefaultGroups[5]]
  {
    var gs := DefaultGroups;
    assert Filter(gs[5..], IsJoined) == [gs[5]];
    assert Filter(gs[4..], IsJoined) == [gs[5]];
    assert Filter(gs[3..], IsJoined) == [gs[5]];
    assert Filter(gs[2..], IsJoined) == [gs[5]];
    assert Filter(gs[1..], IsJoined) == [gs[1], gs[5]];
  }

  /** What the avatar shows: the image, or the first two characters of the
      name. */
  datatype AvatarContent = Image(url: string) | Initials(text: string)

  /** `group.imageUrl ? <AvatarImage/> : <AvatarFallback>name.substring(0, 2)`:
      an absent and an empty URL are both falsy. */
  function Avatar(g: Group): (a: AvatarContent)
    ensures a.Image? <==> g.imageUrl.Some? && g.imageUrl.value != ""
    ensures a.Image? ==> a.url == g.imageUrl.value
    ensures a.Initials? ==>
      |a.text| == (if |g.name| < 2 then |g.name| else 2) && a.text <= g.name
  {
    if g.imageUrl.Some? && g.imageUrl.value != "" then Image(g.imageUrl.value)
    else if |g.name| < 2 then Initials(g.name)
    else Initials(g.name[..2])
  }

  /** The Discover tab's button text. */
  function JoinButtonLabel(g: Group): (text: string)
    ensures text == "View Group" <==> g.isJoined
    ensures text == "Join Group" <==> !g.isJoined
  {
    if g.isJoined then "View Group" else "Join Group"
  }

  /** The My Groups tab always renders "View Group"; when the list is
      derived from `groups` that agrees with the Discover tab's button for
      the same group. */
  lemma DerivedMyGroupsAgreeWithDiscover(groups: seq<Group>)
    ensures forall i :: 0 <= i < |MyGroups([], groups)| ==>
      JoinButtonLabel(MyGroups([], groups)[i]) == "View Group"
  {
  }

  /** `group.upcomingEvents > 0`: an absent count compares false. */
  function ShowsUpcomingEvents(g: Group): (shown: bool)
    ensures shown ==> g.upcomingEvents.Some? && g.upcomingEvents.value >= 1
    ensures g.upcomingEvents == None || g.upcomingEvents == Some(0) ==> !shown
    ensures g.upcomingEvents.Some? && g.upcomingEvents.value >= 1 ==> shown
  {
    g.upcomingEvents.Some? && g.upcomingEvents.value > 0
  }

  /** Every default group shows its upcoming-events line, and none shows the
      initials fallback. */
  lemma DefaultGroupsCards()
    ensures forall i :: 0 <= i < |DefaultGroups| ==>
      ShowsUpcomingEvents(DefaultGroups[i]) && Avatar(DefaultGroups[i]).Image?
  {
  }
}
