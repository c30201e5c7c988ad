/** The profile tab: loads the signed-in user's profile row, lets the user
    edit name, phone and address and save them, and shows the avatar
    initial, the account type and, for sellers, the business tools. */
module ProfileScreen {
  import opened Remote
  import opened Text

  /** The profile as the screen holds it. A null column is held as "",
      which the screen's truthiness checks treat alike. */
  datatype Profile = Profile(fullName: string, phoneNumber: string, address: string, role: string)

  const InitialProfile := Profile("", "", "", "buyer")

  /** The update sent on save: exactly the three editable columns. The
      role is not among them. */
  datatype ProfilePatch = ProfilePatch(fullName: string, phoneNumber: string, address: string)

  function PatchOf(p: Profile): ProfilePatch
  {
    ProfilePatch(p.fullName, p.phoneNumber, p.address)
  }

  /** The patch carries the edited fields unchanged and nothing of the
      role: two profiles that differ only in role send the same patch. */
  lemma PatchIgnoresRole(p: Profile, role: string)
    ensures PatchOf(p) == PatchOf(p.(role := role))
    ensures PatchOf(p).fullName == p.fullName && PatchOf(p).phoneNumber == p.phoneNumber
    ensures PatchOf(p).address == p.address
  {
  }

  /** The avatar letter: the upper-cased first character of the full name,
      or of the email when the name is empty; nothing without either. */
  function AvatarInitial(fullName: string, user: Option<User>): (letter: string)
    ensures |letter| <= 1
    ensures fullName != "" ==> letter == [UpperChar(fullName[0])]
    ensures fullName == "" && user.Some? && user.value.email.Some? && user.value.email.value != "" ==>
              letter == [UpperChar(user.value.email.value[0])]
    ensures fullName == "" && !(user.Some? && Truthy(user.value.email)) ==> letter == ""
  {
    if fullName != "" then FirstUpper(fullName)
    else if user.Some? && user.value.email.Some? then FirstUpper(user.value.email.value)
    else ""
  }

  /** The account badge. */
  function RoleLabel(role: string): (text: string)
    ensures text == "Supplier Account" <==> role == "seller"
    ensures text == "Buyer Account" <==> role != "seller"
  {
    if role == "seller" then "Supplier Account" else "Buyer Account"
  }

  /** The business tools section is shown outside edit mode, to sellers. */
  predicate ShowsSellerTools(isEditing: bool, role: string)
  {
    !isEditing && role == "seller"
  }

  /** The business tools appear exactly when a supplier account is not
      being edited. */
  lemma SellerToolsMatchBadge(isEditing: bool, role: string)
    ensures ShowsSellerTools(isEditing, role) <==> !isEditing && RoleLabel(role) == "Supplier Account"
  {
  }

  /** The backend requests this screen issues. */
  datatype Request =
    | FetchProfileRow(userId: string)
    | UpdateProfileRow(userId: string, patch: ProfilePatch)

  /** How a press of "Save Changes" ends its first half: the button was
      disabled because a save is in flight, the request went out, or
      reading `user.id` of a signed-out user threw (uncaught, so nothing
      resets `saving`). */
  datatype UpdateStart = Ignored | Sent(request: Request) | Threw

  /** The screen's state. */
  class ProfileView {
    var loading: bool
    var saving: bool
    var isEditing: bool
    var profile: Profile
    /** Whether an update request was sent and its answer is still awaited;
        only such an update can finish. */
    ghost var updateInFlight: bool

    constructor ()
      ensures loading && !saving && !isEditing && profile == InitialProfile
      ensures !updateInFlight
    {
      loading, saving, isEditing := true, false, false;
      profile := InitialProfile;
      updateInFlight := false;
    }

    /** `fetchProfile`: without a user nothing is requested; an error or an
        empty answer keeps the profile; `loading` ends false on every path. */
    method FetchProfile(user: Option<User>, reply: Reply<Option<Profile>>) returns (sent: seq<Request>)
      modifies this`loading, this`profile
      ensures !loading
      ensures user.None? ==> sent == [] && profile == old(profile)
      ensures user.Some? ==> sent == [FetchProfileRow(user.value.id)]
      ensures user.Some? ==>
                profile == if reply.Ok? && reply.data.Some? then reply.data.value else old(profile)
    {
      loading := true;
      sent := [];
      if user.Some? {
        sent := [FetchProfileRow(user.value.id)];
        if reply.Ok? && reply.data.Some? {
          profile := reply.data.value;
        }
      }
      loading := false;
    }

    /** The Edit / Cancel button of the header, drawn once loading ends. */
    method ToggleEdit()
      requires !loading
      modifies this`isEditing
      ensures isEditing == !old(isEditing)
    {
      isEditing := !isEditing;
    }

    /** A text input of the edit form (`setProfile({...profile, ...})`),
        drawn only in edit mode: the role is never edited here. */
    method EditFields(fullName: string, phoneNumber: string, address: string)
      requires !loading && isEditing
      modifies this`profile
      ensures profile == old(profile).(fullName := fullName, phoneNumber := phoneNumber, address := address)
    {
      profile := profile.(fullName := fullName, phoneNumber := phoneNumber, address := address);
    }

    /** "Save Changes", drawn only in edit mode and disabled while saving;
        otherwise `updateProfile` up to its await: `saving` goes up, then
        the patch of the three editable fields is sent for the user's row. */
    method StartUpdate(user: Option<User>) returns (start: UpdateStart)
      requires !loading && isEditing
      modifies this`saving, this`updateInFlight
      ensures saving
      ensures old(saving) ==> start == Ignored && updateInFlight == old(updateInFlight)
      ensures !old(saving) ==> updateInFlight == start.Sent?
      ensures !old(saving) && user.Some? ==> start == Sent(UpdateProfileRow(user.value.id, PatchOf(profile)))
      ensures !old(saving) && user.None? ==> start == Threw
    {
      if saving {
        start := Ignored;
        return;
      }
      saving := true;
      if user.Some? {
        start := Sent(UpdateProfileRow(user.value.id, PatchOf(profile)));
        updateInFlight := true;
      } else {
        start := Threw;
        updateInFlight := false;
      }
    }

    /** `updateProfile` after its await, reached only by an update that was
        sent (after a throw `saving` stays true for good): `saving` goes
        down on both outcomes; only a success leaves edit mode. */
    method FinishUpdate(reply: Reply<()>) returns (alert: Alert)
      requires saving && updateInFlight
      modifies this`saving, this`isEditing, this`updateInFlight
      ensures !saving && !updateInFlight
      ensures reply.Ok? ==> !isEditing && alert == Alert("Success", "Profile updated successfully!")
      ensures reply.Err? ==> isEditing == old(isEditing) && alert == Alert("Update Failed", reply.message)
    {
      saving := false;
      updateInFlight := false;
      if reply.Err? {
        alert := Alert("Update Failed", reply.message);
      } else {
        alert := Alert("Success", "Profile updated successfully!");
        isEditing := false;
      }
    }
  }
}
