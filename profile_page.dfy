/** The profile page: the profile fields, the vehicle list, and the two
    mounted vehicle dialogs (one edits an existing vehicle, the other adds
    a new one) together with the flags that open and close them. */
module Profile {
  import opened Lists
  import opened Text
  import opened VehicleDialog

  /** What the profile editor hands back on save. */
  datatype ProfileData = ProfileData(name: string, bio: string, location: string)

  const NewCoverImage := "https://images.unsplash.com/photo-1511988617509-a57c8a288659?w=1200&q=80"
  const AvatarSeedPrefix := "https://api.dicebear.com/7.x/avataaars/svg?seed=user"

  /** The edit path's `list.map(v => v.id === updated.id ? updated : v)`. */
  function ReplaceById(list: seq<Vehicle>, updated: Vehicle): (r: seq<Vehicle>)
    ensures |r| == |list|
    ensures forall i :: 0 <= i < |list| ==>
      r[i] == if list[i].id == updated.id then updated else list[i]
  {
    if list == [] then []
    else [if list[0].id == updated.id then updated else list[0]] + ReplaceById(list[1..], updated)
  }

  predicate HasId(list: seq<Vehicle>, id: string) {
    exists i :: 0 <= i < |list| && list[i].id == id
  }

  /** The edit path never appends: an id that is not in the list leaves
      the list exactly as it was. */
  lemma ReplaceUnknownIdIsIdentity(list: seq<Vehicle>, updated: Vehicle)
    requires !HasId(list, updated.id)
    ensures ReplaceById(list, updated) == list
  {
  }

  /** With an id that occurs once, the entry at that position and only it
      becomes the saved vehicle. */
  lemma ReplaceUniqueId(list: seq<Vehicle>, updated: Vehicle, k: nat)
    requires k < |list| && list[k].id == updated.id
    requires forall i :: 0 <= i < |list| && i != k ==> list[i].id != updated.id
    ensures ReplaceById(list, updated) == list[k := updated]
  {
  }

  /** Saving the same record twice changes nothing the second time. */
  lemma ReplaceByIdIdempotent(list: seq<Vehicle>, updated: Vehicle)
    ensures ReplaceById(ReplaceById(list, updated), updated) == ReplaceById(list, updated)
  {
  }

  /** The page's state cells, with the two EditVehicleDialog instances it
      renders. */
  class ProfilePage {
    const isOwnProfile: bool
    var userName: string
    var userBio: string
    var userLocation: string
    var userAvatar: string
    var userCoverImage: string
    var vehicles: seq<Vehicle>
    var isVehicleDialogOpen: bool
    var editingVehicle: Option<Vehicle>
    var isAddVehicleDialogOpen: bool
    var isSettingsDialogOpen: bool
    const editDialog: EditVehicleDialog
    const addDialog: EditVehicleDialog

    /** The edit dialog is rendered with `editingVehicle`, the add dialog
        always with null; the edit dialog is open exactly while a vehicle is
        being edited, since the page sets and clears the two together. */
    ghost predicate Valid()
      reads this, editDialog, addDialog
    {
      && editDialog != addDialog
      && editDialog.vehicle == editingVehicle
      && addDialog.vehicle == None
      && (isVehicleDialogOpen <==> editingVehicle.Some?)
    }

    constructor (isOwnProfile: bool, userName: string, userBio: string, userLocation: string,
                 userAvatar: string, userCoverImage: string, userVehicles: seq<Vehicle>,
                 currentYear: int)
      ensures Valid() && fresh(editDialog) && fresh(addDialog)
      ensures this.isOwnProfile == isOwnProfile
      ensures this.userName == userName && this.userBio == userBio
      ensures this.userLocation == userLocation && this.userAvatar == userAvatar
      ensures this.userCoverImage == userCoverImage
      ensures vehicles == userVehicles
      ensures !isVehicleDialogOpen && editingVehicle == None
      ensures !isAddVehicleDialogOpen && !isSettingsDialogOpen
      ensures editDialog.Current() == Initial(None, currentYear)
      ensures addDialog.Current() == Initial(None, currentYear)
    {
      this.isOwnProfile := isOwnProfile;
      this.userName, this.userBio, this.userLocation := userName, userBio, userLocation;
      this.userAvatar, this.userCoverImage := userAvatar, userCoverImage;
      vehicles := userVehicles;
      isVehicleDialogOpen, editingVehicle := false, None;
      isAddVehicleDialogOpen, isSettingsDialogOpen := false, false;
      editDialog := new EditVehicleDialog(None, currentYear);
      addDialog := new EditVehicleDialog(None, currentYear);
    }

    /** The profile editor's `onSave`: name, bio and location only. */
    method SaveProfile(data: ProfileData)
      requires isOwnProfile
      modifies this
      ensures userName == data.name && userBio == data.bio && userLocation == data.location
      ensures userAvatar == old(userAvatar) && userCoverImage == old(userCoverImage)
      ensures vehicles == old(vehicles) && editingVehicle == old(editingVehicle)
      ensures isVehicleDialogOpen == old(isVehicleDialogOpen)
      ensures isAddVehicleDialogOpen == old(isAddVehicleDialogOpen)
      ensures isSettingsDialogOpen == old(isSettingsDialogOpen)
    {
      userName := data.name;
      userBio := data.bio;
      userLocation := data.location;
    }

    /** "Change Cover": switches to the fixed alternative cover image. */
    method ChangeCover()
      requires isOwnProfile
      modifies this`userCoverImage
      ensures userCoverImage == NewCoverImage
    {
      userCoverImage := NewCoverImage;
    }

    /** Clicking the avatar, given `Math.floor(Math.random() * 1000)`. */
    method ChangeAvatar(seed: nat)
      requires isOwnProfile && seed < 1000
      modifies this`userAvatar
      ensures userAvatar == AvatarSeedPrefix + Digits(seed)
    {
      userAvatar := AvatarSeedPrefix + Digits(seed);
    }

    method OpenSettings()
      requires isOwnProfile
      modifies this`isSettingsDialogOpen
      ensures isSettingsDialogOpen
    {
      isSettingsDialogOpen := true;
    }

    method CloseSettings()
      modifies this`isSettingsDialogOpen
      ensures !isSettingsDialogOpen
    {
      isSettingsDialogOpen := false;
    }

    /** The edit button on a vehicle card. While either vehicle dialog is
        open the modal covers the cards, so the button cannot be clicked. */
    method OpenEditVehicle(v: Vehicle)
      requires Valid() && isOwnProfile && v in vehicles
      requires !isVehicleDialogOpen && !isAddVehicleDialogOpen
      modifies this`editingVehicle, this`isVehicleDialogOpen, editDialog
      ensures Valid()
      ensures editingVehicle == Some(v) && isVehicleDialogOpen
      ensures editDialog.Current() == Seed(v)
      ensures vehicles == old(vehicles) && isAddVehicleDialogOpen == old(isAddVehicleDialogOpen)
    {
      editingVehicle := Some(v);
      isVehicleDialogOpen := true;
      editDialog.ReceiveVehicle(editingVehicle);
    }

    /** The edit dialog's `onClose`; the stale draft stays in the dialog. */
    method CloseEditVehicle()
      requires Valid()
      modifies this`editingVehicle, this`isVehicleDialogOpen, editDialog
      ensures Valid()
      ensures editingVehicle == None && !isVehicleDialogOpen
      ensures editDialog.Current() == old(editDialog.Current())
      ensures vehicles == old(vehicles) && isAddVehicleDialogOpen == old(isAddVehicleDialogOpen)
    {
      isVehicleDialogOpen := false;
      editingVehicle := None;
      editDialog.ReceiveVehicle(editingVehicle);
    }

    /** The edit dialog's `onSave`: replace every entry with the same id. */
    method HandleEditSave(updated: Vehicle)
      modifies this`vehicles
      ensures vehicles == ReplaceById(old(vehicles), updated)
    {
      vehicles := ReplaceById(vehicles, updated);
    }

    /** The add dialog's `onSave`: append, with no check on the id. */
    method HandleAddSave(newVehicle: Vehicle)
      modifies this`vehicles
      ensures vehicles == old(vehicles) + [newVehicle]
    {
      vehicles := vehicles + [newVehicle];
    }

    /** One callback of the edit dialog, run by the handler the page
        passes as that prop. */
    method RunEditCallback(c: Callback)
      requires Valid()
      modifies this`vehicles, this`editingVehicle, this`isVehicleDialogOpen, editDialog
      ensures Valid()
      ensures c.OnSave? ==>
        && vehicles == ReplaceById(old(vehicles), c.vehicle)
        && editingVehicle == old(editingVehicle) && isVehicleDialogOpen == old(isVehicleDialogOpen)
      ensures c.OnClose? ==>
        vehicles == old(vehicles) && editingVehicle == None && !isVehicleDialogOpen
      ensures editDialog.Current() == old(editDialog.Current())
    {
      match c
      case OnSave(v) => HandleEditSave(v);
      case OnClose => CloseEditVehicle();
    }

    /** The edit dialog's Save button (rendered only while the dialog is
        open), with the callbacks it makes run in the order it makes them. */
    method SubmitEditDialog(now: nat)
      requires Valid() && isVehicleDialogOpen
      modifies this`vehicles, this`editingVehicle, this`isVehicleDialogOpen, editDialog
      ensures Valid()
      ensures vehicles == ReplaceById(old(vehicles),
                                      BuildVehicle(old(editingVehicle), old(editDialog.Current()), now))
      ensures editingVehicle == None && !isVehicleDialogOpen
      ensures editDialog.Current() == old(editDialog.Current())
    {
      var calls := editDialog.Save(now);
      RunEditCallback(calls[0]);
      RunEditCallback(calls[1]);
    }

    /** The edit dialog's Cancel button (rendered only while the dialog is
        open): the list is untouched. */
    method CancelEditDialog()
      requires Valid() && isVehicleDialogOpen
      modifies this`editingVehicle, this`isVehicleDialogOpen, editDialog
      ensures Valid()
      ensures vehicles == old(vehicles)
      ensures editingVehicle == None && !isVehicleDialogOpen
      ensures editDialog.Current() == old(editDialog.Current())
    {
      var calls := editDialog.Cancel();
      assert calls == [OnClose];  // so only the `onClose` handler runs
      CloseEditVehicle();
    }

    method OpenAddVehicle()
      requires isOwnProfile
      modifies this`isAddVehicleDialogOpen
      ensures isAddVehicleDialogOpen
    {
      isAddVehicleDialogOpen := true;
    }

    method CloseAddVehicle()
      modifies this`isAddVehicleDialogOpen
      ensures !isAddVehicleDialogOpen
    {
      isAddVehicleDialogOpen := false;
    }

    /** One callback of the add dialog, run by the handler the page passes
        as that prop. */
    method RunAddCallback(c: Callback)
      modifies this`vehicles, this`isAddVehicleDialogOpen
      ensures c.OnSave? ==>
        vehicles == old(vehicles) + [c.vehicle] && isAddVehicleDialogOpen == old(isAddVehicleDialogOpen)
      ensures c.OnClose? ==> vehicles == old(vehicles) && !isAddVehicleDialogOpen
    {
      match c
      case OnSave(v) => HandleAddSave(v);
      case OnClose => CloseAddVehicle();
    }

    /** The add dialog's Save button (rendered only while the dialog is
        open): the new record is appended, and the add dialog keeps its
        draft for the next time it opens. */
    method SubmitAddDialog(now: nat)
      requires Valid() && isAddVehicleDialogOpen
      modifies this`vehicles, this`isAddVehicleDialogOpen
      ensures Valid()
      ensures vehicles == old(vehicles) + [BuildVehicle(None, addDialog.Current(), now)]
      ensures !isAddVehicleDialogOpen
      ensures editingVehicle == old(editingVehicle)
      ensures addDialog.Current() == old(addDialog.Current())
    {
      var calls := addDialog.Save(now);
      RunAddCallback(calls[0]);
      RunAddCallback(calls[1]);
    }

    /** The add dialog's Cancel button (rendered only while the dialog is
        open). */
    method CancelAddDialog()
      requires Valid() && isAddVehicleDialogOpen
      modifies this`isAddVehicleDialogOpen
      ensures Valid()
      ensures vehicles == old(vehicles) && !isAddVehicleDialogOpen
    {
      var calls := addDialog.Cancel();
      assert calls == [OnClose];  // so only the `onClose` handler runs
      CloseAddVehicle();
    }
  }

  /** Editing only the name of a saved record and saving again gives the
      record with the new name. */
  lemma RenameRoundTrip(v: Vehicle, newName: string, now: nat)
    requires v.id != "" && v.specs.Keys == SpecKeys
    ensures WithText(Seed(v), Name, newName) == Seed(v.(name := newName))
    ensures BuildVehicle(Some(v), Seed(v.(name := newName)), now) == v.(name := newName)
  {
    SeedThenCommit(v.(name := newName), now);
  }

  /** An entry appended with a fresh id is the only one an edit-save with
      that id touches. */
  lemma ReplaceAppended(list: seq<Vehicle>, v: Vehicle, w: Vehicle)
    requires !HasId(list, v.id) && w.id == v.id
    ensures ReplaceById(list + [v], w) == list + [w]
  {
    var l := list + [v];
    assert forall i :: 0 <= i < |l| && i != |list| ==> l[i].id != w.id by {
      forall i | 0 <= i < |l| && i != |list| ensures l[i].id != w.id {
        assert l[i] == list[i];
      }
    }
    ReplaceUniqueId(l, w, |list|);
    assert l[|list| := w] == list + [w];
  }

  /** Two sessions on one page: add a vehicle, then edit that same vehicle
      by id. The list grows by one in the first session only, and the
      second session's edits land on the added entry. */
  method AddThenEdit(userVehicles: seq<Vehicle>, currentYear: int, t1: nat, t2: nat,
                     name1: string, name2: string)
    returns (afterAdd: seq<Vehicle>, afterEdit: seq<Vehicle>)
    requires !HasId(userVehicles, NewVehicleId(t1))
    ensures |afterAdd| == |userVehicles| + 1
    ensures afterAdd[..|userVehicles|] == userVehicles
    ensures afterAdd[|userVehicles|].name == name1
    ensures afterAdd[|userVehicles|].id == NewVehicleId(t1)
    ensures |afterEdit| == |afterAdd|
    ensures afterEdit[..|userVehicles|] == userVehicles
    ensures afterEdit[|userVehicles|] == afterAdd[|userVehicles|].(name := name2)
  {
    var page := new ProfilePage(true, "", "", "", "", "", userVehicles, currentYear);
    page.OpenAddVehicle();
    page.addDialog.SetText(Name, name1);
    page.SubmitAddDialog(t1);
    afterAdd := page.vehicles;
    var added := afterAdd[|userVehicles|];
    assert afterAdd == userVehicles + [added];
    assert added in page.vehicles;
    page.OpenEditVehicle(added);
    page.editDialog.SetText(Name, name2);
    RenameRoundTrip(added, name2, t2);
    page.SubmitEditDialog(t2);
    afterEdit := page.vehicles;
    ReplaceAppended(userVehicles, added, added.(name := name2));
    assert afterEdit == userVehicles + [added.(name := name2)];
  }
}
