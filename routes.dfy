/** The routes page: the saved-routes view, the difficulty colour table,
    the difficulty badge text and the scenic-spots block. */
module Routes {
  import opened Lists
  import opened Text

  datatype Difficulty = Easy | Moderate | Hard | Extreme {
    function Name(): string {
      match this
      case Easy => "easy"
      case Moderate => "moderate"
      case Hard => "hard"
      case Extreme => "extreme"
    }
  }

  datatype Creator = Creator(name: string, avatar: string)

  datatype Route = Route(
    id: string,
    title: string,
    description: string,
    startPoint: string,
    endPoint: string,
    distance: string,
    duration: string,
    difficulty: Difficulty,
    imageUrl: string,
    createdBy: Creator,
    likes: int,
    saves: int,
    scenicSpots: Option<seq<string>>,
    pitStops: Option<seq<string>>,
    isSaved: Option<bool>)

  /** `route.isSaved` is truthy (an absent flag reads as false). */
  predicate IsSaved(r: Route) {
    r.isSaved == Some(true)
  }

  /** `mySavedRoutes`: the supplied saved routes when there are any,
      otherwise the saved routes in their original order. */
  function MySavedRoutes(savedRoutes: seq<Route>, routes: seq<Route>): (r: seq<Route>)
    ensures |savedRoutes| > 0 ==> r == savedRoutes
    ensures |savedRoutes| == 0 ==>
      && IsSubsequence(r, routes)
      && (forall i :: 0 <= i < |r| ==> IsSaved(r[i]))
      && (forall i :: 0 <= i < |routes| && IsSaved(routes[i]) ==> routes[i] in r)
      && |r| == Count(routes, IsSaved)
  {
    SavedView(savedRoutes, routes, IsSaved)
  }

  /** The page's default `routes` prop. */
  const DefaultRoutes: seq<Route> := [
    Route("1", "Mumbai to Lonavala Scenic Route",
      "A beautiful weekend ride through the Western Ghats with stunning valley views and multiple photo spots.",
      "Mumbai", "Lonavala", "95 km", "2.5 hours", Easy,
      "https://images.unsplash.com/photo-1506905925346-21bda4d32df4?w=800&q=80",
      Creator("Rahul Sharma", "https://api.dicebear.com/7.x/avataaars/svg?seed=rahul"),
      245, 78,
      Some(["Khandala Viewpoint", "Lion's Point", "Bhushi Dam"]),
      Some(["Mountain Cafe", "Sunny's Restaurant"]),
      Some(true)),
    Route("2", "Manali to Leh Highway",
      "The ultimate motorcycle adventure through the Himalayas. High altitude passes, breathtaking landscapes, and challenging roads.",
      "Manali", "Leh", "479 km", "2 days", Extreme,
      "https://images.unsplash.com/photo-1516939884455-1445c8652f83?w=800&q=80",
      Creator("Vikram Singh", "https://api.dicebear.com/7.x/avataaars/svg?seed=vikram"),
      876, 432,
      Some(["Rohtang Pass", "Baralacha La", "Gata Loops", "More Plains", "Tanglang La"]),
      Some(["Jispa", "Sarchu", "Pang", "Upshi"]),
      Some(false)),
    Route("3", "Bangalore to Coorg Coffee Estates",
      "A refreshing ride through the coffee plantations of Coorg with misty hills and lush greenery.",
      "Bangalore", "Madikeri", "265 km", "5 hours", Moderate,
      "https://images.unsplash.com/photo-1501785888041-af3ef285b470?w=800&q=80",
      Creator("Priya Patel", "https://api.dicebear.com/7.x/avataaars/svg?seed=priya"),
      389, 156,
      Some(["Abbey Falls", "Raja's Seat", "Dubare Elephant Camp"]),
      Some(["Kamat Restaurant", "Coffee Day Estate"]),
      Some(true)),
    Route("4", "Chennai to Pondicherry Coastal Ride",
      "A relaxing coastal route with beautiful ocean views, French colonial architecture, and seafood stops.",
      "Chennai", "Pondicherry", "170 km", "3.5 hours", Easy,
      "https://images.unsplash.com/photo-1566438480900-0609be27a4be?w=800&q=80",
      Creator("Karthik Rajan", "https://api.dicebear.com/7.x/avataaars/svg?seed=karthik"),
      215, 89,
      Some(["Mahabalipuram Temples", "Alamparai Fort", "Promenade Beach"]),
      Some(["Bay of Buddha", "Seagull Restaurant"]),
      Some(false)),
    Route("5", "Jaipur to Udaipur Royal Route",
      "Experience the royal heritage of Rajasthan with palaces, forts, and desert landscapes.",
      "Jaipur", "Udaipur", "393 km", "7 hours", Moderate,
      "https://images.unsplash.com/photo-1599661046289-e31897846e41?w=800&q=80",
      Creator("Arjun Mehta", "https://api.dicebear.com/7.x/avataaars/svg?seed=arjun"),
      456, 201,
      Some(["Pushkar Lake", "Ajmer Sharif Dargah", "Chittorgarh Fort"]),
      Some(["Natraj Dining Hall", "Rajwada Restaurant"]),
      Some(false))
  ]

  /** With the default props the Saved Routes tab lists routes "1" and
      "3", in that order. */
  lemma DefaultSavedRoutes()
    ensures MySavedRoutes([], DefaultRoutes) == [DefaultRoutes[0], DefaultRoutes[2]]
  {
    var rs := DefaultRoutes;
    assert Filter(rs[4..], IsSaved) == [];
    assert Filter(rs[3..], IsSaved) == [];
    assert Filter(rs[2..], IsSaved) == [rs[2]];
    assert Filter(rs[1..], IsSaved) == [rs[2]];
  }

  const GrayClass := "bg-gray-100 text-gray-800"

  const DifficultyNames: set<string> := {"easy", "moderate", "hard", "extreme"}

  /** `getDifficultyColor`. */
  function DifficultyColor(difficulty: string): (cls: string)
    ensures cls == GrayClass <==> difficulty !in DifficultyNames
  {
    match difficulty
    case "easy" => "bg-green-100 text-green-800"
    case "moderate" => "bg-blue-100 text-blue-800"
    case "hard" => "bg-orange-100 text-orange-800"
    case "extreme" => "bg-red-100 text-red-800"
    case _ => GrayClass
  }

  /** Each difficulty gets its own colour, none of them the fallback gray. */
  lemma DifficultyColorsDistinct(a: Difficulty, b: Difficulty)
    ensures DifficultyColor(a.Name()) != GrayClass
    ensures DifficultyColor(a.Name()) == DifficultyColor(b.Name()) <==> a == b
  {
  }

  /** `route.difficulty.toUpperCase()`. */
  function DifficultyBadge(d: Difficulty): (text: string)
    ensures |text| == |d.Name()| && HasNoLowerAscii(text)
  {
    ToUpperIdempotent(d.Name());
    ToUpper(d.Name())
  }

  /** The badge is already upper case: upper-casing it again changes
      nothing. */
  lemma DifficultyBadgeUpperCase(d: Difficulty)
    ensures ToUpper(DifficultyBadge(d)) == DifficultyBadge(d)
  {
    ToUpperIdempotent(d.Name());
  }

  /** A badge is the upper-cased name, character by character. */
  lemma BadgeFromChars(d: Difficulty, expected: string)
    requires |expected| == |d.Name()|
    requires forall i :: 0 <= i < |expected| ==> expected[i] == UpperChar(d.Name()[i])
    ensures DifficultyBadge(d) == expected
  {
  }

  /** The badge reads EASY, MODERATE, HARD or EXTREME. */
  lemma DifficultyBadges(d: Difficulty)
    ensures DifficultyBadge(d) == match d
      case Easy => "EASY"
      case Moderate => "MODERATE"
      case Hard => "HARD"
      case Extreme => "EXTREME"
  {
    match d
    case Easy => BadgeFromChars(d, "EASY");
    case Moderate => BadgeFromChars(d, "MODERATE");
    case Hard => BadgeFromChars(d, "HARD");
    case Extreme => BadgeFromChars(d, "EXTREME");
  }

  /** `route.scenicSpots && route.scenicSpots.length > 0`: an empty array
      is truthy in JavaScript, so the length test is what hides it. */
  function ShowsScenicSpots(r: Route): (shown: bool)
    ensures shown <==> r.scenicSpots.Some? && exists spot :: spot in r.scenicSpots.value
    ensures r.scenicSpots == Some([]) ==> !shown
  {
    if r.scenicSpots.Some? && |r.scenicSpots.value| > 0 then
      assert r.scenicSpots.value[0] in r.scenicSpots.value;
      true
    else
      false
  }

  /** Every default route has its scenic-spots block. */
  lemma DefaultRoutesShowScenicSpots()
    ensures forall i :: 0 <= i < |DefaultRoutes| ==> ShowsScenicSpots(DefaultRoutes[i])
  {
  }
}
