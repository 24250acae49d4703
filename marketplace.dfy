/** The marketplace page: the saved-listings view, the condition and
    category lookup tables, the condition badge text and the rupee price
    format. */
module Marketplace {
  import opened Lists
  import opened Text

  datatype Category = Vehicles | Parts | Accessories | Gear {
    function Name(): string {
      match this
      case Vehicles => "vehicles"
      case Parts => "parts"
      case Accessories => "accessories"
      case Gear => "gear"
    }
  }

  datatype Condition = New | LikeNew | Good | Fair | Poor {
    function Name(): string {
      match this
      case New => "new"
      case LikeNew => "like-new"
      case Good => "good"
      case Fair => "fair"
      case Poor => "poor"
    }
  }

  datatype Seller = Seller(id: string, name: string, avatar: string, rating: real, verified: bool)

  datatype Listing = Listing(
    id: string,
    title: string,
    price: nat,
    category: Category,
    condition: Condition,
    location: string,
    description: string,
    images: seq<string>,
    postedDate: string,
    seller: Seller,
    isFavorite: Option<bool>)

  // ---------------------------------------------------------------------
  // Saved listings
  // ---------------------------------------------------------------------

  /** `listing.isFavorite` is truthy (an absent flag reads as false). */
  predicate IsFavorite(l: Listing) {
    l.isFavorite == Some(true)
  }

  /** `myFavorites`: the supplied saved listings when there are any,
      otherwise the favourite listings in their original order. */
  function MyFavorites(savedListings: seq<Listing>, listings: seq<Listing>): (r: seq<Listing>)
    ensures |savedListings| > 0 ==> r == savedListings
    ensures |savedListings| == 0 ==>
      && IsSubsequence(r, listings)
      && (forall i :: 0 <= i < |r| ==> IsFavorite(r[i]))
      && (forall i :: 0 <= i < |listings| && IsFavorite(listings[i]) ==> listings[i] in r)
      && |r| == Count(listings, IsFavorite)
  {
    SavedView(savedListings, listings, IsFavorite)
  }

  // ---------------------------------------------------------------------
  // Lookup tables
  // ---------------------------------------------------------------------

  const GrayClass := "bg-gray-100 text-gray-800"

  const ConditionNames: set<string> := {"new", "like-new", "good", "fair", "poor"}

  /** `getConditionColor`. */
  function ConditionColor(condition: string): (cls: string)
    ensures cls == GrayClass <==> condition !in ConditionNames
  {
    match condition
    case "new" => "bg-green-100 text-green-800"
    case "like-new" => "bg-blue-100 text-blue-800"
    case "good" => "bg-yellow-100 text-yellow-800"
    case "fair" => "bg-orange-100 text-orange-800"
    case "poor" => "bg-red-100 text-red-800"
    case _ => GrayClass
  }

  /** The five conditions get five different badge classes, and every
      condition a listing can carry gets one of them. */
  lemma ConditionColorsDistinct(a: Condition, b: Condition)
    ensures ConditionColor(a.Name()) != GrayClass
    ensures ConditionColor(a.Name()) == ConditionColor(b.Name()) <==> a == b
  {
  }

  const CategoryNames: set<string> := {"vehicles", "parts", "accessories", "gear"}

  /** `getCategoryLabel`: fixed labels for the four categories, and any
      other string shown as it is. */
  function CategoryLabel(category: string): (text: string)
    ensures category !in CategoryNames ==> text == category
    ensures category in CategoryNames ==> text in {"Vehicle", "Parts", "Accessory", "Riding Gear"}
  {
    match category
    case "vehicles" => "Vehicle"
    case "parts" => "Parts"
    case "accessories" => "Accessory"
    case "gear" => "Riding Gear"
    case _ => category
  }

  /** Different categories get different labels, none of which is the raw
      category name. */
  lemma CategoryLabelsDistinct(a: Category, b: Category)
    ensures CategoryLabel(a.Name()) != a.Name()
    ensures CategoryLabel(a.Name()) == CategoryLabel(b.Name()) <==> a == b
  {
  }

  // ---------------------------------------------------------------------
  // Condition badge text: replace("-", " ").replace(/\b\w/g, toUpperCase)
  // ---------------------------------------------------------------------

  /** `s.indexOf(c)`: the first position of `c`, or -1. */
  function IndexOf(s: string, c: char): (k: int)
    ensures -1 <= k < |s|
    ensures k == -1 <==> c !in s
    ensures k >= 0 ==> s[k] == c && c !in s[..k]
  {
    if s == [] then -1
    else if s[0] == c then 0
    else
      var k := IndexOf(s[1..], c);
      if k == -1 then -1
      else
        assert s[..k + 1] == [s[0]] + s[1..][..k];
        k + 1
  }

  /** `s.replace(from, to)` with a one-character string pattern. */
  function ReplaceFirst(s: string, from: char, to: char): (r: string)
    ensures |r| == |s|
  {
    if s == [] then []
    else if s[0] == from then [to] + s[1..]
    else [s[0]] + ReplaceFirst(s[1..], from, to)
  }

  /** Only the first occurrence of `from` is replaced, and a string without
      one comes back unchanged. */
  lemma {:induction false} ReplaceFirstOnlyFirst(s: string, from: char, to: char)
    ensures ReplaceFirst(s, from, to) ==
      if IndexOf(s, from) == -1 then s else s[IndexOf(s, from) := to]
  {
    if s == [] {
    } else if s[0] == from {
      assert IndexOf(s, from) == 0;
      assert s[0 := to] == [to] + s[1..];
    } else {
      ReplaceFirstOnlyFirst(s[1..], from, to);
      var k := IndexOf(s[1..], from);
      assert s == [s[0]] + s[1..];
      if k == -1 {
        assert IndexOf(s, from) == -1;
      } else {
        assert IndexOf(s, from) == k + 1;
        assert s[k + 1 := to] == [s[0]] + s[1..][k := to];
      }
    }
  }

  /** Replacing in a string whose first `from` follows the prefix `p`. */
  lemma {:induction false} ReplaceFirstAfter(p: string, from: char, to: char, q: string)
    requires from !in p
    ensures ReplaceFirst(p + [from] + q, from, to) == p + [to] + q
  {
    if p == [] {
      assert p + [from] + q == [from] + q;
    } else {
      assert p + [from] + q == [p[0]] + (p[1..] + [from] + q);
      ReplaceFirstAfter(p[1..], from, to, q);
      assert p + [to] + q == [p[0]] + (p[1..] + [to] + q);
    }
  }

  /** Position `i` of `s` is where `\b\w` matches: a word character that
      starts the string or follows a non-word character. */
  predicate StartsWord(s: string, i: nat)
    requires i < |s|
  {
    IsWordChar(s[i]) && (i == 0 || !IsWordChar(s[i - 1]))
  }

  /** The global regular-expression scan, left to right, remembering
      whether the previous character was a word character. */
  function CapitalizeFrom(s: string, afterWord: bool): (r: string)
    ensures |r| == |s|
    ensures |s| > 0 ==>
      r[0] == if IsWordChar(s[0]) && !afterWord then UpperChar(s[0]) else s[0]
    ensures forall i :: 0 < i < |s| ==>
      r[i] == if StartsWord(s, i) then UpperChar(s[i]) else s[i]
  {
    if s == [] then []
    else
      var rest := CapitalizeFrom(s[1..], IsWordChar(s[0]));
      var r := [if IsWordChar(s[0]) && !afterWord then UpperChar(s[0]) else s[0]] + rest;
      assert forall i :: 1 < i < |s| ==> StartsWord(s, i) == StartsWord(s[1..], i - 1);
      r
  }

  /** `replace(/\b\w/g, (l) => l.toUpperCase())`. */
  function CapitalizeWords(s: string): (r: string)
    ensures |r| == |s|
    ensures forall i :: 0 <= i < |s| ==>
      r[i] == if StartsWord(s, i) then UpperChar(s[i]) else s[i]
  {
    CapitalizeFrom(s, false)
  }

  /** The condition badge text. */
  function ConditionLabel(condition: string): (text: string)
    ensures |text| == |condition|
  {
    CapitalizeWords(ReplaceFirst(condition, '-', ' '))
  }

  lemma ReplaceFirstHyphenLikeNew()
    ensures ReplaceFirst("like-new", '-', ' ') == "like new"
  {
    var p, q := "like", "new";
    assert '-' !in p;
    ReplaceFirstAfter(p, '-', ' ', q);
    assert p + ['-'] + q == "like-new";
    assert p + [' '] + q == "like new";
  }

  lemma CapitalizeLikeNew()
    ensures CapitalizeWords("like new") == "Like New"
  {
    var spaced := "like new";
    assert StartsWord(spaced, 0) && StartsWord(spaced, 5);
    assert forall i :: 0 <= i < 8 && i != 0 && i != 5 ==> !StartsWord(spaced, i);
  }

  /** The badge text of a "like-new" listing. */
  lemma ConditionLabelLikeNew()
    ensures ConditionLabel("like-new") == "Like New"
  {
    ReplaceFirstHyphenLikeNew();
    CapitalizeLikeNew();
  }

  /** Only the first hyphen becomes a space; a later one stays, and the
      letter after it still starts a word. */
  lemma ConditionLabelSecondHyphen()
    ensures ConditionLabel("a-b-c") == "A B-C"
  {
    var s, spaced := "a-b-c", "a b-c";
    assert IndexOf(s, '-') == 1 by {
      assert s[1] == '-' && s[0] != '-';
    }
    assert ReplaceFirst(s, '-', ' ') == spaced;
    assert CapitalizeWords(spaced) == "A B-C" by {
      assert StartsWord(spaced, 0) && StartsWord(spaced, 2) && StartsWord(spaced, 4);
      assert !StartsWord(spaced, 1) && !StartsWord(spaced, 3);
    }
  }

  // ---------------------------------------------------------------------
  // formatPrice: "₹" + price.toLocaleString("en-IN")
  // ---------------------------------------------------------------------

  const Rupee: char := '\U{20B9}'

  /** The en-IN grouping of a digit string as the code groups it: the last
      three digits, then pairs leftwards. */
  function GroupPairs(p: string): string {
    if |p| <= 2 then p else GroupPairs(p[..|p| - 2]) + "," + p[|p| - 2..]
  }

  /** A comma follows a digit that has `after` digits to its right exactly
      when `after` is 3, 5, 7, ... */
  predicate CommaAfter(after: nat) {
    after >= 3 && after % 2 == 1
  }

  /** Reference definition of the grouping, digit by digit from the left,
      for a digit string followed by `extra` further digits. */
  function CommaRef(d: string, extra: nat): string {
    if d == [] then []
    else [d[0]] + (if CommaAfter(|d| - 1 + extra) then "," else "") + CommaRef(d[1..], extra)
  }

  function RemoveCommas(s: string): string {
    if s == [] then [] else (if s[0] == ',' then [] else [s[0]]) + RemoveCommas(s[1..])
  }

  lemma {:induction false} CommaRefSplit(a: string, b: string, extra: nat)
    ensures CommaRef(a + b, extra) == CommaRef(a, |b| + extra) + CommaRef(b, extra)
  {
    if a != [] {
      assert (a + b)[1..] == a[1..] + b;
      CommaRefSplit(a[1..], b, extra);
    } else {
      assert a + b == b;
    }
  }

  lemma {:induction false} CommaRefShort(d: string)
    requires |d| <= 3
    ensures CommaRef(d, 0) == d
  {
    if d != [] {
      CommaRefShort(d[1..]);
    }
  }

  /** Pairs grouped before an odd number (at least 3) of further digits end
      in a comma. */
  lemma {:induction false} GroupPairsMatchesRef(p: string, extra: nat)
    requires |p| >= 1 && CommaAfter(extra)
    ensures CommaRef(p, extra) == GroupPairs(p) + ","
    decreases |p|
  {
    if |p| == 1 {
      assert CommaRef(p[1..], extra) == [];
      assert CommaRef(p, extra) == [p[0]] + "," + [];
    } else if |p| == 2 {
      assert !CommaAfter(1 + extra);
      assert CommaRef(p[1..][1..], extra) == [];
      assert CommaRef(p[1..], extra) == [p[1]] + "," + [];
      assert CommaRef(p, extra) == [p[0]] + ([p[1]] + ",");
      assert GroupPairs(p) == p == [p[0], p[1]];
    } else {
      var q, r := p[..|p| - 2], p[|p| - 2..];
      assert p == q + r;
      CommaRefSplit(q, r, extra);
      assert CommaAfter(extra + 2);
      GroupPairsMatchesRef(q, extra + 2);
      GroupPairsMatchesRef(r, extra);
      assert GroupPairs(p) == GroupPairs(q) + "," + r;
    }
  }

  /** The en-IN grouping of a digit string as the code groups it: the last
      three digits, then pairs leftwards. It agrees with the reference
      definition. */
  function GroupIndian(d: string): (r: string)
    ensures r == CommaRef(d, 0)
  {
    if |d| <= 3 then
      CommaRefShort(d);
      d
    else
      var p, t := d[..|d| - 3], d[|d| - 3..];
      assert d == p + t;
      CommaRefSplit(p, t, 0);
      CommaRefShort(t);
      GroupPairsMatchesRef(p, 3);
      GroupPairs(p) + "," + t
  }

  lemma {:induction false} RemoveCommasOfRef(d: string, extra: nat)
    requires AllDigits(d)
    ensures RemoveCommas(CommaRef(d, extra)) == d
  {
    if d != [] {
      RemoveCommasOfRef(d[1..], extra);
      var tail := CommaRef(d[1..], extra);
      if CommaAfter(|d| - 1 + extra) {
        assert CommaRef(d, extra) == [d[0]] + ([','] + tail);
        assert RemoveCommas([','] + tail) == RemoveCommas(tail) by {
          assert ([','] + tail)[1..] == tail;
        }
      } else {
        assert CommaRef(d, extra) == [d[0]] + tail;
      }
    }
  }

  /** `formatPrice` for a whole-rupee price: the rupee sign, then the
      decimal digits of the price with en-IN commas. */
  function FormatPrice(price: nat): (r: string)
    ensures |r| >= 2 && r[0] == Rupee
    ensures r[1..] == CommaRef(Digits(price), 0)
    ensures RemoveCommas(r[1..]) == Digits(price)
  {
    var d := Digits(price);
    RemoveCommasOfRef(d, 0);
    [Rupee] + GroupIndian(d)
  }

  /** Reading a formatted price back: drop the sign, drop the commas,
      parse the digits. */
  function ParsePrice(s: string): Option<nat> {
    if |s| >= 1 && s[0] == Rupee && AllDigits(RemoveCommas(s[1..])) then
      Some(ParseDigits(RemoveCommas(s[1..])))
    else None
  }

  lemma ParseFormatPrice(price: nat)
    ensures ParsePrice(FormatPrice(price)) == Some(price)
  {
    ParseDigitsOfDigits(price);
  }

  /** The price badge of the first sample listing. */
  lemma FormatPriceExample()
    ensures FormatPrice(195000) == [Rupee] + "1,95,000"
  {
    assert Digits(195000) == "195000" by {
      assert Digits(1) == "1";
      assert Digits(19) == "19";
      assert Digits(195) == "195";
      assert Digits(1950) == "1950";
      assert Digits(19500) == "19500";
    }
    var d := "195000";
    assert d[..3] == "195" && d[3..] == "000";
    assert GroupPairs("195") == "1,95" by {
      assert "195"[..1] == "1" && "195"[1..] == "95";
    }
    assert GroupIndian(d) == "1,95,000";
  }
}
