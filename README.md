# WheelSocial presentation logic in Dafny

WheelSocial is a React front end for a social network of motorcycle and car
owners. Most of it is markup over mock data. This project models the parts
that hold logic:

- **The vehicle edit session.** `EditVehicleDialog` keeps a draft of thirteen
  cells, re-seeds it from its `vehicle` prop, and on Save builds a complete
  vehicle record for `onSave` before calling `onClose`.
- **The profile page's state.** `ProfilePage` holds the vehicle list and the
  dialog flags. Saving from the edit dialog replaces entries by id. Saving
  from the add dialog appends.
- **Post creation in the feed.** `CreatePostCard` holds a tab and a text, and
  emits `{type, content}`. `FeedContainer` turns that into a post with zeroed
  counters and puts it first.
- **The listing pages' derivations.** The marketplace, routes and communities
  pages each have a "saved / favourite / joined" view, lookup tables for
  badge colours and labels, the condition badge text, the difficulty badge
  text, and the rupee price format in Indian digit grouping.

Layout, one module per source file plus two shared modules:

| file | module | models |
|---|---|---|
| `text.dfy` | `Text` | decimal digits and their parse, JavaScript `trim` whitespace, ASCII upper-casing |
| `lists.dfy` | `Lists` | `Option`, order-preserving `Filter`, the "supplied list if non-empty, else filter" view |
| `vehicle_dialog.dfy` | `VehicleDialog` | class `EditVehicleDialog`, the `Vehicle` and `Draft` records, the record built on Save |
| `profile_page.dfy` | `Profile` | class `ProfilePage`, which owns the two mounted dialogs and the vehicle list |
| `create_post_card.dfy` | `PostComposer` | class `CreatePostCard` |
| `feed_container.dfy` | `Feed` | class `FeedContainer` and the post it builds |
| `marketplace.dfy` | `Marketplace` | favourites view, condition and category tables, condition label, `formatPrice` |
| `routes.dfy` | `Routes` | saved-routes view, difficulty table and badge, scenic-spots block |
| `communities.dfy` | `Communities` | my-groups view, group avatar, join button, upcoming-events line |

How the model treats callbacks and other outside inputs:

- A dialog's calls into its parent (`onSave`, `onClose`) are returned as a
  list of `Callback` values, in call order. `ProfilePage` then runs each
  callback, in that order, through the handler it passes as that prop
  (`Profile.ProfilePage.RunEditCallback`, `Profile.ProfilePage.RunAddCallback`).
- A dialog's buttons exist only while it is open, and an open modal covers
  the vehicle cards. So Save and Cancel require their dialog to be open,
  and the card's edit button requires both vehicle dialogs to be closed.
- Mounting a dialog runs the `useState` initialisers, then the effect's
  first run.
- `Date.now()`, `new Date().getFullYear()`, `Math.random()` and `parseInt`
  are parameters: `now`, `currentYear`, `seed` and an already-parsed `year`.

Two things the model states because the code does them:

- The edit path only maps over the list, so an unknown id changes nothing
  (`Profile.ReplaceUnknownIdIsIdentity`); only the add path appends.
- The year cell stores whatever `parseInt` returned, and Save copies it
  unchanged.

## Model

| member | source | states |
|---|---|---|
| VehicleDialog.Initial | src/components/profile/EditVehicleDialog.tsx:42-66 | With no vehicle, the first draft has every text cell empty, type motorcycle and the current year. With a vehicle, it holds the vehicle's fields and spec values (missing keys read as ""), and a year of 0 falls back to the current year. |
| VehicleDialog.EditVehicleDialog.constructor | src/components/profile/EditVehicleDialog.tsx:42-84 | After mounting, the draft is the seed of a non-null vehicle. With a null vehicle it is the blank draft with the current year. |
| VehicleDialog.EditVehicleDialog.RunSeedEffect | src/components/profile/EditVehicleDialog.tsx:68-84 | A non-null vehicle overwrites all thirteen cells with its values, and an absent spec key gives "". A null vehicle leaves the draft exactly as it was. |
| VehicleDialog.EditVehicleDialog.ReceiveVehicle | src/components/profile/EditVehicleDialog.tsx:68-84 | A new `vehicle` prop is stored and the draft is re-seeded from it, or kept when it is null. |
| VehicleDialog.EditVehicleDialog.SetText | src/components/profile/EditVehicleDialog.tsx:134-296 | One text input changes its own cell and no other; the prop is untouched. |
| VehicleDialog.WithText | src/components/profile/EditVehicleDialog.tsx:134-296 | Writing one text cell gives that cell the new value and leaves the other ten text cells, the year and the type as they were. |
| VehicleDialog.EditVehicleDialog.SetYear | src/components/profile/EditVehicleDialog.tsx:189 | The year cell becomes the parsed number as given, with no fallback; nothing else changes. |
| VehicleDialog.EditVehicleDialog.SetType | src/components/profile/EditVehicleDialog.tsx:147 | The type cell becomes the selected type; nothing else changes. |
| VehicleDialog.NewVehicleId | src/components/profile/EditVehicleDialog.tsx:88 | A fresh id is "vehicle-" followed by the decimal digits of the timestamp, and those digits parse back to the timestamp. |
| VehicleDialog.NewVehicleIdsDistinct | src/components/profile/EditVehicleDialog.tsx:88 | Vehicles added at different times get different ids. |
| VehicleDialog.BuildVehicle | src/components/profile/EditVehicleDialog.tsx:86-107 | The saved record keeps the source vehicle's id when it is non-empty, else takes a fresh id. It keeps the source's images, else the one default image. Its specs have exactly the seven keys. Seeding a draft from the record gives back the draft. |
| VehicleDialog.SeedThenCommit | src/components/profile/EditVehicleDialog.tsx:68-107 | Seeding from a vehicle with a non-empty id and exactly the seven spec keys, then saving with no edits, returns that vehicle unchanged. |
| VehicleDialog.ExtraSpecKeyDropped | src/components/profile/EditVehicleDialog.tsx:98-106 | A spec key outside the seven is missing from the saved record, so that round trip does not return the vehicle. |
| VehicleDialog.CreateModeDefaults | src/components/profile/EditVehicleDialog.tsx:42-66 | Saving an untouched add dialog gives a fresh id, empty strings, type motorcycle, the current year, the default image and seven empty specs. |
| VehicleDialog.EditVehicleDialog.Save | src/components/profile/EditVehicleDialog.tsx:86-111 | Save makes exactly two calls: `onSave` with the record built from the prop and the current draft, then `onClose`. |
| VehicleDialog.EditVehicleDialog.Cancel | src/components/profile/EditVehicleDialog.tsx:114 | Cancel, like closing the dialog, calls only `onClose` and never `onSave`. |
| Profile.ProfilePage.constructor | src/components/profile/ProfilePage.tsx:76-87 | The list starts as `userVehicles` and the profile fields as their props. No dialog is open and nothing is being edited. Both dialogs start with the blank draft. |
| Profile.ProfilePage.SaveProfile | src/components/profile/ProfilePage.tsx:177-181 | Saving the profile overwrites name, bio and location with the submitted data and changes nothing else. |
| Profile.ProfilePage.ChangeCover | src/components/profile/ProfilePage.tsx:105-110 | The cover becomes the fixed alternative image. |
| Profile.ProfilePage.ChangeAvatar | src/components/profile/ProfilePage.tsx:136-140 | The avatar becomes the dicebear URL with seed "user" followed by the random number below 1000. |
| Profile.ProfilePage.OpenEditVehicle | src/components/profile/ProfilePage.tsx:259-263 | Clicking edit on a listed vehicle, possible only while both vehicle dialogs are closed, sets `editingVehicle` to it and opens the dialog. The edit dialog's draft becomes that vehicle's seed. The list, the profile fields and the add dialog are not written. |
| Profile.ProfilePage.CloseEditVehicle | src/components/profile/ProfilePage.tsx:338-341 | Closing resets `editingVehicle` to null and the flag to false. The dialog keeps its old draft; the list and every other cell are not written. |
| Profile.ReplaceById | src/components/profile/ProfilePage.tsx:344-346 | Edit-save keeps the length. Every entry with the saved id becomes the saved vehicle, and every other entry stays as it was, in place. |
| Profile.ReplaceUnknownIdIsIdentity | src/components/profile/ProfilePage.tsx:344-346 | Edit-save with an id that is not in the list leaves the list unchanged; it never appends. |
| Profile.ReplaceUniqueId | src/components/profile/ProfilePage.tsx:344-346 | When the id occurs once, edit-save is an update at that one position. |
| Profile.ReplaceByIdIdempotent | src/components/profile/ProfilePage.tsx:344-346 | Saving the same record twice gives the same list as saving it once. |
| Profile.ProfilePage.RunEditCallback | src/components/profile/ProfilePage.tsx:335-354 | The edit dialog's `onSave` replaces by id and leaves the session open; its `onClose` closes the session and clears `editingVehicle`. Neither touches the draft. |
| Profile.ProfilePage.HandleEditSave | src/components/profile/ProfilePage.tsx:342-347 | The edit dialog's `onSave` sets the list to the replace-by-id of the old list. |
| Profile.ProfilePage.RunAddCallback | src/components/profile/ProfilePage.tsx:358-370 | The add dialog's `onSave` appends and leaves it open; its `onClose` closes it and leaves the list. |
| Profile.ProfilePage.HandleAddSave | src/components/profile/ProfilePage.tsx:362-364 | The add dialog's `onSave` appends the new vehicle as the last element, with no check on its id. |
| Profile.ProfilePage.SubmitEditDialog | src/components/profile/ProfilePage.tsx:335-355 | Saving from the open edit dialog replaces by id with the record built from the edited vehicle and its draft, then closes the session. The profile fields and the add dialog are not written. |
| Profile.ProfilePage.CancelEditDialog | src/components/profile/ProfilePage.tsx:335-341 | Cancelling the open edit dialog leaves the list and the draft unchanged and closes the session; no other cell is written. |
| Profile.ProfilePage.CloseAddVehicle | src/components/profile/ProfilePage.tsx:361 | The add dialog's `onClose` clears its open flag and writes no other cell. |
| Profile.ProfilePage.OpenAddVehicle | src/components/profile/ProfilePage.tsx:228 | "Add Vehicle" opens the add dialog. |
| Profile.ProfilePage.SubmitAddDialog | src/components/profile/ProfilePage.tsx:358-373 | Saving from the open add dialog appends a record with a fresh id built from its draft. The add dialog keeps that draft for its next opening. Only the list and the add dialog's open flag change. |
| Profile.ProfilePage.CancelAddDialog | src/components/profile/ProfilePage.tsx:358-361 | Cancelling the open add dialog leaves the list unchanged and closes it; only its open flag is written. |
| Profile.ProfilePage.OpenSettings | src/components/profile/ProfilePage.tsx:194 | The Settings button opens the settings dialog. |
| Profile.ProfilePage.CloseSettings | src/components/profile/ProfilePage.tsx:376-379 | The settings dialog's `onClose` closes it. |
| Profile.RenameRoundTrip | src/components/profile/EditVehicleDialog.tsx:68-107 | Re-opening a saved vehicle, changing only its name and saving gives the vehicle with the new name. |
| Profile.ReplaceAppended | src/components/profile/ProfilePage.tsx:344-346 | An entry appended with an id new to the list is the only entry an edit-save with that id replaces. |
| Profile.AddThenEdit | src/components/profile/ProfilePage.tsx:335-373 | Adding a vehicle and then editing it by id grows the list by one in the first session only. The second session's edit lands on the added entry and leaves the earlier entries alone. |
| PostComposer.CreatePostCard.constructor | src/components/feed/CreatePostCard.tsx:17-20 | The composer starts on the photo tab with empty content. |
| PostComposer.CreatePostCard.SelectTab | src/components/feed/CreatePostCard.tsx:48-50 | Switching tab changes only the tab; the shared content is kept. |
| PostComposer.CreatePostCard.SetContent | src/components/feed/CreatePostCard.tsx:72-110 | Typing replaces the content and keeps the tab. |
| PostComposer.CreatePostCard.CanPost | src/components/feed/CreatePostCard.tsx:129 | The Post button is enabled iff the content has a character that is not JavaScript whitespace, which is when the trimmed content is non-empty. |
| Text.TrimEmptyIff | src/components/feed/CreatePostCard.tsx:129 | Trimming gives "" iff every character is whitespace. |
| PostComposer.CreatePostCard.Submit | src/components/feed/CreatePostCard.tsx:22-31 | Submit emits exactly the current tab and content, with no emptiness check, then clears the content and keeps the tab. |
| Feed.FeedContainer.constructor | src/components/feed/FeedContainer.tsx:105 | The feed starts as the `posts` argument. |
| Feed.PostTypeOf | src/components/feed/FeedContainer.tsx:124 | "ride" becomes "ride_log"; "photo" and "route" pass through. |
| Feed.PostTypeOfInjective | src/components/feed/FeedContainer.tsx:124 | Two tabs give the same post type only if they are the same tab. |
| Feed.TempId | src/components/feed/FeedContainer.tsx:118 | A new post's id is "temp-" followed by the digits of the timestamp, and those digits parse back to it. |
| Feed.TempIdsDistinct | src/components/feed/FeedContainer.tsx:118 | Posts made at different times get different ids. |
| Feed.NewPost | src/components/feed/FeedContainer.tsx:117-128 | The new post carries the submitted content and the mapped type. Its likes, comments and shares are 0, and it has no images or details. |
| Feed.FeedContainer.ShowsEmptyState | src/components/feed/FeedContainer.tsx:157 | "No posts yet" shows iff the feed is empty. |
| Feed.FeedContainer.HandlePostCreate | src/components/feed/FeedContainer.tsx:107-131 | The parent receives the submission unchanged. The new post becomes element 0 and the old feed follows in order, so the empty state is gone. |
| Feed.PostFromComposer | src/components/feed/FeedContainer.tsx:135 | A click on Post while the content is blank (the button is disabled, src/components/feed/CreatePostCard.tsx:129) forwards nothing and changes neither the feed nor the composer. A click on the enabled button grows the feed by one, with a first post carrying the composer's content (which has a non-whitespace character) and type, and clears the composer. |
| Lists.Filter | src/components/marketplace/MarketplacePage.tsx:187 | `filter` keeps exactly the elements that pass, in their original order. |
| Lists.FilterLength | src/components/marketplace/MarketplacePage.tsx:187 | The filtered list has as many elements as pass the test. |
| Marketplace.MyFavorites | src/components/marketplace/MarketplacePage.tsx:184-187 | A non-empty `savedListings` is used as is. Otherwise the view is the favourite listings, in order, and each of them as often as it occurs in the full list. |
| Marketplace.ConditionColor | src/components/marketplace/MarketplacePage.tsx:195-210 | The gray class is returned iff the condition is not one of the five names. |
| Marketplace.ConditionColorsDistinct | src/components/marketplace/MarketplacePage.tsx:195-210 | The five conditions get five different classes. |
| Marketplace.CategoryLabel | src/components/marketplace/MarketplacePage.tsx:213-226 | The four categories get fixed labels, and any other input is returned unchanged. |
| Marketplace.CategoryLabelsDistinct | src/components/marketplace/MarketplacePage.tsx:213-226 | The four categories get four different labels. |
| Marketplace.ReplaceFirst | src/components/marketplace/MarketplacePage.tsx:260 | `replace("-", " ")` keeps the length of the string. |
| Marketplace.ReplaceFirstAfter | src/components/marketplace/MarketplacePage.tsx:260 | In a string whose first "-" follows a prefix without one, that hyphen and nothing else becomes a space. |
| Marketplace.ReplaceFirstOnlyFirst | src/components/marketplace/MarketplacePage.tsx:260 | Only the first "-" becomes a space; a string without one is unchanged. |
| Marketplace.CapitalizeWords | src/components/marketplace/MarketplacePage.tsx:261 | Each word character that starts a word is upper-cased, and every other character is kept. |
| Marketplace.ConditionLabel | src/components/marketplace/MarketplacePage.tsx:259-261 | The condition label has the same length as the condition. |
| Marketplace.ConditionLabelLikeNew | src/components/marketplace/MarketplacePage.tsx:259-261 | "like-new" is shown as "Like New". |
| Marketplace.ConditionLabelSecondHyphen | src/components/marketplace/MarketplacePage.tsx:259-261 | Only the first hyphen is replaced: "a-b-c" is shown as "A B-C". |
| Marketplace.GroupIndian | src/components/marketplace/MarketplacePage.tsx:191 | The en-IN grouping equals the reference placement: a comma after a digit exactly when 3, 5, 7, ... digits follow it. |
| Marketplace.FormatPrice | src/components/marketplace/MarketplacePage.tsx:189-192 | The price text starts with "₹". The rest is the en-IN grouping of the price's digits, and removing its commas gives those digits. |
| Marketplace.ParseFormatPrice | src/components/marketplace/MarketplacePage.tsx:189-192 | The price can be read back from its formatted text. |
| Marketplace.FormatPriceExample | src/components/marketplace/MarketplacePage.tsx:189-192 | 195000 is shown as "₹1,95,000". |
| Routes.MySavedRoutes | src/components/routes/RoutesPage.tsx:171-174 | A non-empty `savedRoutes` is used as is. Otherwise the view is the saved routes, in order, and each of them as often as it occurs in the full list. |
| Routes.DefaultSavedRoutes | src/components/routes/RoutesPage.tsx:46-174 | With the default data, the saved view is routes "1" and "3". |
| Routes.DifficultyColor | src/components/routes/RoutesPage.tsx:177-190 | The gray class is returned iff the difficulty is not easy, moderate, hard or extreme. |
| Routes.DifficultyColorsDistinct | src/components/routes/RoutesPage.tsx:177-190 | The four difficulties get four different classes, none of them gray. |
| Routes.DifficultyBadge | src/components/routes/RoutesPage.tsx:203 | The badge text is the difficulty in upper case: same length, no lower-case letter. |
| Text.ToUpper | src/components/routes/RoutesPage.tsx:203 | Upper-casing keeps the length and maps each character on its own. |
| Routes.DifficultyBadgeUpperCase | src/components/routes/RoutesPage.tsx:203 | The badge is already upper case, so upper-casing it again changes nothing. |
| Routes.DifficultyBadges | src/components/routes/RoutesPage.tsx:203 | The four badges read EASY, MODERATE, HARD and EXTREME. |
| Routes.ShowsScenicSpots | src/components/routes/RoutesPage.tsx:240 | The scenic-spots block shows iff the list is present and has a spot. A present empty list hides it. |
| Routes.DefaultRoutesShowScenicSpots | src/components/routes/RoutesPage.tsx:46-167 | Every default route shows its scenic spots. |
| Communities.MyGroups | src/components/communities/CommunitiesPage.tsx:100-103 | A non-empty `joinedGroups` is used as is. Otherwise the view is the joined groups, in order, and each of them as often as it occurs in the full list. |
| Communities.EmptyMyGroupsIff | src/components/communities/CommunitiesPage.tsx:194-260 | The "haven't joined any groups" block shows iff no joined groups are supplied and no group is joined. |
| Communities.DefaultMyGroups | src/components/communities/CommunitiesPage.tsx:28-103 | With the default data, the view is groups "2" and "6". |
| Communities.Avatar | src/components/communities/CommunitiesPage.tsx:138-144 | The image shows iff the URL is present and non-empty. Otherwise the avatar text is the first two characters of the name, or the whole name if it is shorter. |
| Communities.JoinButtonLabel | src/components/communities/CommunitiesPage.tsx:176-186 | The discover button reads "View Group" iff the group is joined, and "Join Group" otherwise. |
| Communities.DerivedMyGroupsAgreeWithDiscover | src/components/communities/CommunitiesPage.tsx:238 | When the my-groups view is derived, its fixed "View Group" button agrees with the discover button for every group in it. |
| Communities.ShowsUpcomingEvents | src/components/communities/CommunitiesPage.tsx:167 | The upcoming-events line shows iff a count is present and positive. |
| Communities.DefaultGroupsCards | src/components/communities/CommunitiesPage.tsx:28-96 | Every default group shows its upcoming events and its image. |

## Left out

- Markup, CSS layout, icons and toast notifications are presentation only. So are the tab switches done by clicking DOM elements found with `querySelector`.
- The navigation bar, the settings dialog's switches, the sidebars, the app's routing and bootstrap, and `PostCard` are rendering only. `PostCard`'s difficulty colour table is the same as `Routes.DifficultyColor`.
- `EditProfileDialog` is not part of this model. `Profile.ProfilePage.SaveProfile` takes the data it hands back.
- The dialog effect depends on `[vehicle]` by reference. The model runs it on every prop change (`Profile.ProfilePage.OpenEditVehicle`, `Profile.ProfilePage.CloseEditVehicle`). Opening requires the dialog to be closed, so `editingVehicle` goes from null to a vehicle and back, and each change is a new reference.
- `VehicleDialog.EditVehicleDialog.SetYear` takes an integer and so does not model `NaN`, which `parseInt` returns for non-numeric text. `NaN` would be stored and saved the same way.
- A vehicle's `specs` is a map, so the key order of the JavaScript object is not modelled.
- Strings are sequences of Unicode code points, not UTF-16 units. This matters only for `name.substring(0, 2)` on characters outside the Basic Multilingual Plane (`Communities.Avatar`).
- `Text.ToUpper` upper-cases ASCII letters only; the inputs it is used on are ASCII.
- `Marketplace.FormatPrice` covers natural-number prices only. Fractions, negative prices and precision above 2^53 are not modelled.
- `toLocaleString()` on member counts uses the browser's locale, which is not known, so it is not modelled.
- Seller ratings are floating point and only displayed; they are kept as `real` and never computed with.
- Vehicle ids are not checked for uniqueness anywhere in the source, and the model does not add a check. `Profile.ProfilePage.HandleAddSave` appends a duplicate id as the code does.
- Listing cards, route cards and group cards are not modelled beyond the values they display that are listed above.
