/** A seller's own listings: loaded by the phone number on the seller's
    profile, and deleted one at a time together with the listing's stored
    image when that image belongs to the seller. */
module MyListingsScreen {
  import opened Remote
  import opened Text

  /** The backend requests this screen issues. */
  datatype Request =
    | ProfilePhoneQuery(userId: string)   // profiles.phone_number where id = userId
    | SuppliersByPhone(phone: string)     // suppliers where phone = phone
    | RemoveImage(fileName: string)       // storage bucket "suppliers", remove [fileName]
    | DeleteSupplier(id: string)          // suppliers delete where id = id

  /** The single profile row the phone lookup returns, if any. The lookup's
      error is not inspected: a failed lookup reads as no row. */
  datatype PhoneRow = PhoneRow(phoneNumber: Option<string>)

  /** `profile?.phone_number` is truthy. */
  predicate HasPhone(profile: Option<PhoneRow>)
  {
    profile.Some? && Truthy(profile.value.phoneNumber)
  }

  /** The position of the first listing with that id, or the length of
      the list when there is none. */
  function IndexOfId(listings: seq<Supplier>, id: string): (k: nat)
    ensures k <= |listings|
    ensures forall j :: 0 <= j < k ==> listings[j].id != id
    ensures k < |listings| ==> listings[k].id == id
  {
    if listings == [] then 0
    else if listings[0].id == id then 0
    else 1 + IndexOfId(listings[1..], id)
  }

  /** `listings.find((l) => l.id === id)`: the first listing with that id. */
  function FindById(listings: seq<Supplier>, id: string): (r: Option<Supplier>)
    ensures r.None? <==> forall l :: l in listings ==> l.id != id
    ensures r.Some? ==> r.value in listings && r.value.id == id
    ensures r.Some? ==> r.value == listings[IndexOfId(listings, id)]
  {
    var k := IndexOfId(listings, id);
    if k < |listings| then Some(listings[k]) else None
  }

  /** The storage file name of an image URL: its last "/" segment. */
  function FileName(imageUrl: string): (name: string)
    ensures '/' !in name && |name| <= |imageUrl| && name == imageUrl[|imageUrl| - |name|..]
    ensures |name| < |imageUrl| ==> imageUrl[|imageUrl| - |name| - 1] == '/'
  {
    LastSegment(imageUrl, '/')
  }

  /** What the delete action does about the listing's stored image. */
  datatype ImagePlan =
    | KeepImage               // no image, empty file name, or not the user's file
    | RemoveFile(name: string)
    | NoUser                  // `user.id` on a signed-out user throws

  /** The image rule of the delete action: the image is removed only when
      the listing has an image URL whose file name is non-empty and starts
      with the user's id. */
  function PlanImage(listing: Option<Supplier>, user: Option<User>): (p: ImagePlan)
    ensures p.RemoveFile? <==>
              listing.Some? && Truthy(listing.value.imageUrl) && user.Some? &&
              FileName(listing.value.imageUrl.value) != "" &&
              user.value.id <= FileName(listing.value.imageUrl.value)
    ensures p.RemoveFile? ==> p.name == FileName(listing.value.imageUrl.value) && '/' !in p.name
    ensures p.NoUser? <==>
              listing.Some? && Truthy(listing.value.imageUrl) && user.None? &&
              FileName(listing.value.imageUrl.value) != ""
  {
    if listing.Some? && Truthy(listing.value.imageUrl) then
      var fileName := FileName(listing.value.imageUrl.value);
      if fileName == "" then KeepImage
      else if user.None? then NoUser
      else if user.value.id <= fileName then RemoveFile(fileName)
      else KeepImage
    else KeepImage
  }

  /** An image stored under the user's own name in any folder is removed. */
  lemma OwnImageIsRemoved(listing: Supplier, user: User, folder: string, suffix: string)
    requires '/' !in user.id + suffix && user.id + suffix != ""
    requires listing.imageUrl == Some(folder + "/" + user.id + suffix)
    ensures PlanImage(Some(listing), Some(user)) == RemoveFile(user.id + suffix)
  {
    LastSegmentOfPath(folder, '/', user.id + suffix);
    assert folder + "/" + user.id + suffix == folder + ['/'] + (user.id + suffix);
  }

  /** How the delete action ends. */
  datatype DeleteOutcome = Refetch | Failed(alert: Alert)

  /** The message of the TypeError raised by reading `id` of a null user. */
  const NullUserMessage := "Cannot read property 'id' of null"

  /** The screen's state. */
  class ListingsView {
    var listings: seq<Supplier>
    var loading: bool

    constructor ()
      ensures listings == [] && loading
    {
      listings := [];
      loading := true;
    }

    /** `fetchListings`: look up the user's phone, then the suppliers with
        that phone. Every path, the early return and the catch included,
        ends with `loading` false. */
    method FetchListings(user: Option<User>, profile: Option<PhoneRow>,
                         reply: Reply<Option<seq<Supplier>>>) returns (sent: seq<Request>)
      modifies this
      ensures !loading
      // `user.id` on a signed-out user throws before any request; the catch only logs
      ensures user.None? ==> sent == [] && listings == old(listings)
      // no phone on the profile: empty list, and no supplier query
      ensures user.Some? && !HasPhone(profile) ==>
                sent == [ProfilePhoneQuery(user.value.id)] && listings == []
      ensures user.Some? && HasPhone(profile) ==>
                sent == [ProfilePhoneQuery(user.value.id), SuppliersByPhone(profile.value.phoneNumber.value)]
      ensures user.Some? && HasPhone(profile) ==>
                listings == match reply
                            case Err(_) => old(listings)       // thrown, caught and logged
                            case Ok(None) => []                // `data || []`
                            case Ok(Some(rows)) => rows
    {
      loading := true;
      sent := [];
      if user.None? {
        loading := false;
        return;
      }
      sent := sent + [ProfilePhoneQuery(user.value.id)];
      if !HasPhone(profile) {
        listings := [];
        loading := false;
        return;
      }
      sent := sent + [SuppliersByPhone(profile.value.phoneNumber.value)];
      match reply {
        case Err(_) =>
        case Ok(data) =>
          listings := if data.Some? then data.value else [];
      }
      loading := false;
    }

    /** The "Delete" choice of the confirmation dialog for listing `id`:
        remove the listing's own image if it has one (a storage error is
        only logged), then delete the row; on success refetch, on any error
        alert. Reads `listings`, changes nothing. */
    method ConfirmDelete(id: string, user: Option<User>, storage: Reply<()>, delete: Reply<()>)
      returns (sent: seq<Request>, outcome: DeleteOutcome)
      ensures var plan := PlanImage(FindById(listings, id), user);
              && (plan.NoUser? ==> sent == [] && outcome == Failed(Alert("Error", NullUserMessage)))
              && (plan.RemoveFile? ==> sent == [RemoveImage(plan.name), DeleteSupplier(id)])
              && (plan.KeepImage? ==> sent == [DeleteSupplier(id)])
              && (!plan.NoUser? ==>
                    outcome == if delete.Ok? then Refetch else Failed(Alert("Error", delete.message)))
    {
      var plan := PlanImage(FindById(listings, id), user);
      sent := [];
      match plan {
        case NoUser =>
          outcome := Failed(Alert("Error", NullUserMessage));
          return;
        case RemoveFile(name) =>
          sent := sent + [RemoveImage(name)];
          // the storage reply is logged on error and otherwise ignored
        case KeepImage =>
      }
      sent := sent + [DeleteSupplier(id)];
      if delete.Ok? {
        outcome := Refetch;
      } else {
        outcome := Failed(Alert("Error", delete.message));
      }
    }
  }
}
